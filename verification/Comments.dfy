/** Pull-request comments: a sectioned document appended piece by piece within a limit of
    characters, and the recogniser that must find such comments again. */
module Comments {
  import opened Common

  /** A line of a section, or the printed rows of a table. */
  datatype Item = Line(text: string) | Rows(rows: seq<string>)

  /** A section's items; a closing marker has none. */
  type Section = Option<seq<Item>>

  datatype Rendering = Text(text: string) | LimitTooSmall

  // ---------- the pieces of a document ----------

  function Terminated(v: string): string {
    if v == "" || v[|v| - 1] != '\n' then v + "\n" else v
  }

  function RowPieces(rows: seq<string>): seq<string> {
    if rows == [] then [] else RowPieces(rows[..|rows| - 1]) + [Terminated(rows[|rows| - 1])]
  }

  function PiecesOf(item: Item): seq<string> {
    match item
    case Line(text) => [Terminated(text)]
    case Rows(rows) => RowPieces(rows)
  }

  function ItemPieces(items: seq<Item>): seq<string> {
    if items == [] then []
    else ItemPieces(items[..|items| - 1]) + PiecesOf(items[|items| - 1])
  }

  function SectionPieces(section: Section): seq<string> {
    ["\n"] + if section.Some? then ItemPieces(section.value) else []
  }

  function Pieces(sections: seq<Section>): seq<string> {
    if sections == [] then []
    else Pieces(sections[..|sections| - 1]) + SectionPieces(sections[|sections| - 1])
  }

  function Joined(pieces: seq<string>): string {
    if pieces == [] then "" else Joined(pieces[..|pieces| - 1]) + pieces[|pieces| - 1]
  }

  /** How many pieces are kept: as long as all of them stay below `max`. */
  function Fit(pieces: seq<string>, max: nat): (n: nat)
    ensures n <= |pieces|
  {
    if pieces == [] then 0
    else
      var n := Fit(pieces[..|pieces| - 1], max);
      if n < |pieces| - 1 || |Joined(pieces)| >= max then n else |pieces|
  }

  /** What has been appended after these pieces were offered. */
  function Trimmed(pieces: seq<string>, max: nat, link: string): seq<string> {
    var n := Fit(pieces, max);
    if n < |pieces| then pieces[..n] + [link] else pieces
  }

  lemma TrimmedMore(pieces: seq<string>, v: string, max: nat, link: string)
    ensures var n := Fit(pieces, max);
      Trimmed(pieces + [v], max, link) ==
        if n < |pieces| then Trimmed(pieces, max, link)
        else if |Joined(pieces)| + |v| >= max then pieces + [link]
        else pieces + [v]
    ensures (Fit(pieces + [v], max) < |pieces| + 1) <==> (Fit(pieces, max) < |pieces| || |Joined(pieces)| + |v| >= max)
  {
    var all := pieces + [v];
    assert all[..|all| - 1] == pieces;
    assert Joined(all) == Joined(pieces) + v;
    if Fit(pieces, max) < |pieces| {
      assert all[..Fit(pieces, max)] == pieces[..Fit(pieces, max)];
    } else {
      assert all[..|pieces|] == pieces;
    }
  }

  /** Once a piece is dropped, whatever would follow changes nothing. */
  lemma {:induction false} TrimmedStays(pieces: seq<string>, more: seq<string>, max: nat, link: string)
    requires Fit(pieces, max) < |pieces|
    ensures Trimmed(pieces + more, max, link) == Trimmed(pieces, max, link) && Fit(pieces + more, max) < |pieces + more|
  {
    if more == [] {
      assert pieces + more == pieces;
    } else {
      var front, last := more[..|more| - 1], more[|more| - 1];
      TrimmedStays(pieces, front, max, link);
      TrimmedMore(pieces + front, last, max, link);
      assert pieces + more == pieces + front + [last];
    }
  }

  class Appender {
    var content: seq<string>
    const link: string
    const max: nat
    var total: nat
    var stopped: bool
    ghost var offered: seq<string>

    ghost predicate Valid() reads this {
      content == Trimmed(offered, max, link) && (stopped <==> Fit(offered, max) < |offered|) &&
      (!stopped ==> total == |Joined(offered)|)
    }

    constructor (charLimit: nat, link: string)
      requires charLimit >= |link|
      ensures Valid() && offered == [] && max == charLimit - |link| && this.link == link
    {
      content, total, stopped, offered := [], 0, false, [];
      this.link := link;
      max := charLimit - |link|;
    }

    method Append(v: string)
      requires Valid()
      modifies this
      ensures Valid() && offered == old(offered) + [v]
    {
      TrimmedMore(offered, v, max, link);
      assert (offered + [v])[..|offered|] == offered;
      offered := offered + [v];
      if stopped {
        return;
      }
      if total + |v| >= max {
        stopped := true;
        content := content + [link];
        total := total + |link|;
      } else {
        content := content + [v];
        total := total + |v|;
      }
    }

    /** Leaving a loop early because no piece can be taken any more is the same as going on. */
    ghost method Skip(more: seq<string>)
      requires Valid() && (stopped || more == [])
      modifies this`offered
      ensures Valid() && offered == old(offered) + more
    {
      if stopped {
        TrimmedStays(offered, more, max, link);
      } else {
        assert offered + more == offered;
      }
      offered := offered + more;
    }
  }

  lemma {:induction false} RowPiecesOfBoth(a: seq<string>, b: seq<string>)
    ensures RowPieces(a + b) == RowPieces(a) + RowPieces(b)
  {
    if b == [] {
      assert a + b == a;
    } else {
      assert (a + b)[..|a + b| - 1] == a + b[..|b| - 1];
      RowPiecesOfBoth(a, b[..|b| - 1]);
    }
  }

  lemma {:induction false} PiecesOfBoth(a: seq<Section>, b: seq<Section>)
    ensures Pieces(a + b) == Pieces(a) + Pieces(b)
  {
    if b == [] {
      assert a + b == a;
    } else {
      var front, last := b[..|b| - 1], b[|b| - 1];
      assert (a + b)[..|a + b| - 1] == a + front;
      PiecesOfBoth(a, front);
      JoinsRegroup(Pieces(a), Pieces(front), SectionPieces(last));
    }
  }

  // ---------- rendering ----------

  function Rendered(sections: seq<Section>, link: string, charLimit: nat): Rendering {
    if charLimit < |link| then LimitTooSmall
    else Text(Joined(Trimmed(Pieces(sections), charLimit - |link|, link)))
  }

  lemma NextRow(rows: seq<string>, i: nat)
    requires i < |rows|
    ensures RowPieces(rows[..i + 1]) == RowPieces(rows[..i]) + [Terminated(rows[i])]
  {
    assert rows[..i + 1][..i] == rows[..i];
  }

  lemma NextItem(items: seq<Item>, i: nat)
    requires i < |items|
    ensures ItemPieces(items[..i + 1]) == ItemPieces(items[..i]) + PiecesOf(items[i])
  {
    assert items[..i + 1][..i] == items[..i];
  }

  lemma NextSection(sections: seq<Section>, k: nat)
    requires k < |sections|
    ensures Pieces(sections[..k + 1]) == Pieces(sections[..k]) + SectionPieces(sections[k])
  {
    assert sections[..k + 1][..k] == sections[..k];
  }

  method AppendRows(appender: Appender, rows: seq<string>)
    requires appender.Valid()
    modifies appender
    ensures appender.Valid() && appender.offered == old(appender.offered) + RowPieces(rows)
  {
    ghost var start := appender.offered;
    var i := 0;
    while i < |rows| && !appender.stopped
      invariant 0 <= i <= |rows| && appender.Valid()
      invariant appender.offered == start + RowPieces(rows[..i])
    {
      NextRow(rows, i);
      JoinsRegroup(start, RowPieces(rows[..i]), [Terminated(rows[i])]);
      appender.Append(Terminated(rows[i]));
      i := i + 1;
    }
    RowPiecesOfBoth(rows[..i], rows[i..]);
    assert rows[..i] + rows[i..] == rows;
    JoinsRegroup(start, RowPieces(rows[..i]), RowPieces(rows[i..]));
    assert i == |rows| ==> rows[i..] == [];
    appender.Skip(RowPieces(rows[i..]));
  }

  method AppendItem(appender: Appender, item: Item)
    requires appender.Valid()
    modifies appender
    ensures appender.Valid() && appender.offered == old(appender.offered) + PiecesOf(item)
  {
    match item {
      case Rows(rows) => AppendRows(appender, rows);
      case Line(text) => appender.Append(Terminated(text));
    }
  }

  method AppendItems(appender: Appender, items: seq<Item>)
    requires appender.Valid()
    modifies appender
    ensures appender.Valid() && appender.offered == old(appender.offered) + ItemPieces(items)
  {
    ghost var start := appender.offered;
    var i := 0;
    while i < |items|
      invariant 0 <= i <= |items| && appender.Valid()
      invariant appender.offered == start + ItemPieces(items[..i])
    {
      NextItem(items, i);
      JoinsRegroup(start, ItemPieces(items[..i]), PiecesOf(items[i]));
      AppendItem(appender, items[i]);
      i := i + 1;
    }
    assert items[..i] == items;
  }

  method AppendSection(appender: Appender, section: Section)
    requires appender.Valid()
    modifies appender
    ensures appender.Valid() && appender.offered == old(appender.offered) + SectionPieces(section)
  {
    appender.Append("\n");
    if section.Some? {
      JoinsRegroup(old(appender.offered), ["\n"], ItemPieces(section.value));
      if appender.stopped {
        appender.Skip(ItemPieces(section.value));
      } else {
        AppendItems(appender, section.value);
      }
    }
  }

  method GetContent(sections: seq<Section>, link: string, charLimit: nat) returns (content: Rendering)
    ensures content == Rendered(sections, link, charLimit)
  {
    if charLimit < |link| {
      return LimitTooSmall;
    }
    var appender := new Appender(charLimit, link);
    var k := 0;
    while k < |sections| && !appender.stopped
      invariant 0 <= k <= |sections| && appender.Valid() && fresh(appender)
      invariant appender.offered == Pieces(sections[..k])
    {
      NextSection(sections, k);
      AppendSection(appender, sections[k]);
      k := k + 1;
    }
    PiecesOfBoth(sections[..k], sections[k..]);
    assert sections[..k] + sections[k..] == sections;
    assert k == |sections| ==> sections[k..] == [];
    appender.Skip(Pieces(sections[k..]));
    content := Text(Joined(appender.content));
  }

  // ---------- what rendering means ----------

  lemma {:induction false} JoinedGrows(pieces: seq<string>, m: nat, n: nat)
    requires m <= n <= |pieces|
    ensures |Joined(pieces[..m])| <= |Joined(pieces[..n])|
  {
    if m < n {
      JoinedGrows(pieces, m, n - 1);
      assert pieces[..n][..n - 1] == pieces[..n - 1];
    }
  }

  lemma {:induction false} FitIsLongest(pieces: seq<string>, max: nat)
    ensures var n := Fit(pieces, max);
      (n == 0 || |Joined(pieces[..n])| < max) &&
      forall m :: 0 < m <= |pieces| && |Joined(pieces[..m])| < max ==> m <= n
  {
    if pieces != [] {
      var front, n := pieces[..|pieces| - 1], Fit(pieces, max);
      FitIsLongest(front, max);
      assert pieces[..|pieces|] == pieces;
      assert forall m :: 0 <= m <= |front| ==> front[..m] == pieces[..m];
      forall m | 0 < m <= |pieces| && |Joined(pieces[..m])| < max ensures m <= n {
        if m == |pieces| {
          JoinedGrows(pieces, |front|, |pieces|);
        }
      }
    }
  }

  lemma {:induction false} RowPiecesEnd(rows: seq<string>)
    ensures forall p :: p in RowPieces(rows) ==> p != "" && p[|p| - 1] == '\n'
  {
    if rows != [] {
      RowPiecesEnd(rows[..|rows| - 1]);
    }
  }

  lemma {:induction false} ItemPiecesEnd(items: seq<Item>)
    ensures forall p :: p in ItemPieces(items) ==> p != "" && p[|p| - 1] == '\n'
  {
    if items != [] {
      ItemPiecesEnd(items[..|items| - 1]);
      match items[|items| - 1]
      case Rows(rows) => RowPiecesEnd(rows);
      case _ =>
    }
  }

  lemma {:induction false} PiecesEnd(sections: seq<Section>)
    ensures forall p :: p in Pieces(sections) ==> p != "" && p[|p| - 1] == '\n'
  {
    if sections != [] {
      PiecesEnd(sections[..|sections| - 1]);
      var last := sections[|sections| - 1];
      if last.Some? {
        ItemPiecesEnd(last.value);
      }
    }
  }

  lemma {:induction false} JoinedOfBoth(a: seq<string>, b: seq<string>)
    ensures Joined(a + b) == Joined(a) + Joined(b)
  {
    if b == [] {
      assert a + b == a;
    } else {
      var front := b[..|b| - 1];
      assert (a + b)[..|a + b| - 1] == a + front;
      JoinedOfBoth(a, front);
      assert Joined(a) + Joined(front) + b[|b| - 1] == Joined(a) + (Joined(front) + b[|b| - 1]);
    }
  }

  lemma JoinedLast(a: seq<string>, v: string)
    ensures Joined(a + [v]) == Joined(a) + v
  {
    assert (a + [v])[..|a|] == a;
  }

  lemma TrimmedText(pieces: seq<string>, max: nat, link: string)
    ensures var n := Fit(pieces, max);
      Joined(Trimmed(pieces, max, link)) == Joined(pieces[..n]) + if n < |pieces| then link else ""
  {
    var n := Fit(pieces, max);
    if n < |pieces| {
      JoinedLast(pieces[..n], link);
    } else {
      assert pieces[..n] == pieces;
      assert Joined(pieces) + "" == Joined(pieces);
    }
  }

  lemma KeptEnds(pieces: seq<string>, n: nat)
    requires n <= |pieces| && forall p :: p in pieces ==> p != "" && p[|p| - 1] == '\n'
    ensures var kept := Joined(pieces[..n]); kept == "" || kept[|kept| - 1] == '\n'
  {
    if n > 0 {
      assert pieces[..n] == pieces[..n - 1] + [pieces[n - 1]];
      JoinedLast(pieces[..n - 1], pieces[n - 1]);
      assert pieces[n - 1] in pieces;
    }
  }

  /** A text is the longest prefix of the pieces that stays below `max`, followed by the link exactly
      when a piece is dropped, and is cut only after a newline. */
  ghost predicate LongestPrefix(text: string, pieces: seq<string>, max: nat, link: string, n: nat) {
    n <= |pieces| &&
    var kept := Joined(pieces[..n]);
    text == kept + (if n < |pieces| then link else "") &&
    (n == 0 || |kept| < max) && (forall m :: n < m <= |pieces| ==> |Joined(pieces[..m])| >= max) &&
    (kept == "" || kept[|kept| - 1] == '\n')
  }

  lemma TrimmedIsLongest(pieces: seq<string>, max: nat, link: string)
    requires forall p :: p in pieces ==> p != "" && p[|p| - 1] == '\n'
    ensures LongestPrefix(Joined(Trimmed(pieces, max, link)), pieces, max, link, Fit(pieces, max))
  {
    FitIsLongest(pieces, max);
    TrimmedText(pieces, max, link);
    KeptEnds(pieces, Fit(pieces, max));
  }

  /** Only one number of pieces makes the longest prefix. */
  lemma LongestIsUnique(text: string, other: string, pieces: seq<string>, max: nat, link: string, n: nat, k: nat)
    requires LongestPrefix(text, pieces, max, link, n) && LongestPrefix(other, pieces, max, link, k)
    ensures n == k && text == other
  {
  }

  lemma LongestFits(text: string, pieces: seq<string>, max: nat, link: string, n: nat)
    requires LongestPrefix(text, pieces, max, link, n)
    ensures |text| <= max + |link|
    ensures n == |pieces| <==> pieces == [] || |Joined(pieces)| < max
  {
    assert pieces[..|pieces|] == pieces;
  }

  /** The longest prefix, within the limit, and whole exactly when the whole stays below. */
  ghost predicate Fits(text: string, pieces: seq<string>, max: nat, link: string, n: nat) {
    LongestPrefix(text, pieces, max, link, n) && |text| <= max + |link| &&
    (n == |pieces| <==> pieces == [] || |Joined(pieces)| < max)
  }

  lemma TrimmedFits(pieces: seq<string>, max: nat, link: string)
    requires forall p :: p in pieces ==> p != "" && p[|p| - 1] == '\n'
    ensures Fits(Joined(Trimmed(pieces, max, link)), pieces, max, link, Fit(pieces, max))
  {
    TrimmedIsLongest(pieces, max, link);
    LongestFits(Joined(Trimmed(pieces, max, link)), pieces, max, link, Fit(pieces, max));
  }

  // ---------- what the pieces are ----------

  /** A place in a document: the marker of a section, a line of a section, or a row of a table in one. */
  datatype Spot =
    | Marker(section: nat)
    | LineAt(section: nat, item: nat)
    | RowAt(section: nat, item: nat, row: nat)

  predicate InDocument(sections: seq<Section>, p: Spot) {
    p.section < |sections| &&
    (!p.Marker? ==> sections[p.section].Some? && p.item < |sections[p.section].value|) &&
    match p
    case Marker(_) => true
    case LineAt(k, i) => sections[k].value[i].Line?
    case RowAt(k, i, j) => sections[k].value[i].Rows? && j < |sections[k].value[i].rows|
  }

  /** The order of a document: a section after the other, its marker before its items, and rows in order. */
  predicate Precedes(p: Spot, q: Spot) {
    p.section < q.section ||
    (p.section == q.section && !q.Marker? &&
     (p.Marker? || p.item < q.item || (p.item == q.item && p.RowAt? && q.RowAt? && p.row < q.row)))
  }

  /** A text and, unless it ends with one, a newline. */
  predicate Ended(piece: string, text: string) {
    if text != "" && text[|text| - 1] == '\n' then piece == text else piece == text + "\n"
  }

  predicate Shows(sections: seq<Section>, p: Spot, piece: string)
    requires InDocument(sections, p)
  {
    match p
    case Marker(_) => piece == "\n"
    case LineAt(k, i) => Ended(piece, sections[k].value[i].text)
    case RowAt(k, i, j) => Ended(piece, sections[k].value[i].rows[j])
  }

  ghost predicate InOrder(spots: seq<Spot>) {
    forall m, n :: 0 <= m < n < |spots| ==> Precedes(spots[m], spots[n])
  }

  /** A part of a document. */
  datatype Part =
    | Whole
    | SectionsUpTo(upto: nat)
    | TheSection(section: nat)
    | TheMarker(section: nat)
    | ItemsUpTo(section: nat, upto: nat)
    | TheItem(section: nat, item: nat)
  {
    predicate Holds(p: Spot) {
      match this
      case Whole => true
      case SectionsUpTo(k) => p.section < k
      case TheSection(k) => p.section == k
      case TheMarker(k) => p == Marker(k)
      case ItemsUpTo(k, n) => p.section == k && !p.Marker? && p.item < n
      case TheItem(k, i) => p.section == k && !p.Marker? && p.item == i
    }
  }

  /** The pieces show, in order, each once, exactly the spots of this part of the document. */
  ghost predicate Covers(sections: seq<Section>, part: Part, spots: seq<Spot>, pieces: seq<string>) {
    |spots| == |pieces| && InOrder(spots) &&
    (forall p :: p in spots <==> InDocument(sections, p) && part.Holds(p)) &&
    forall n :: 0 <= n < |spots| ==> InDocument(sections, spots[n]) && Shows(sections, spots[n], pieces[n])
  }

  /** The pieces of a document: every marker, line and row in order, each with its newline. */
  ghost predicate Laid(sections: seq<Section>, pieces: seq<string>) {
    exists spots :: Covers(sections, Whole, spots, pieces)
  }

  lemma CoversBoth(sections: seq<Section>, a: Part, b: Part, both: Part,
      sa: seq<Spot>, sb: seq<Spot>, pa: seq<string>, pb: seq<string>)
    requires Covers(sections, a, sa, pa) && Covers(sections, b, sb, pb)
    requires forall p :: InDocument(sections, p) ==> (both.Holds(p) <==> a.Holds(p) || b.Holds(p))
    requires forall p, q :: p in sa && q in sb ==> Precedes(p, q)
    ensures Covers(sections, both, sa + sb, pa + pb)
  {
    var spots, pieces := sa + sb, pa + pb;
    forall m, n | 0 <= m < n < |spots| ensures Precedes(spots[m], spots[n]) {
      if m < |sa| <= n {
        assert spots[m] in sa && spots[n] in sb;
      }
    }
    forall n | 0 <= n < |spots| ensures InDocument(sections, spots[n]) && Shows(sections, spots[n], pieces[n]) {
      assert if n < |sa| then spots[n] == sa[n] && pieces[n] == pa[n]
        else spots[n] == sb[n - |sa|] && pieces[n] == pb[n - |sa|];
    }
  }

  lemma {:induction false} RowPiecesAre(rows: seq<string>)
    ensures |RowPieces(rows)| == |rows|
    ensures forall j :: 0 <= j < |rows| ==> Ended(RowPieces(rows)[j], rows[j])
  {
    if rows != [] {
      RowPiecesAre(rows[..|rows| - 1]);
    }
  }

  lemma ItemCovered(sections: seq<Section>, k: nat, i: nat) returns (spots: seq<Spot>)
    requires k < |sections| && sections[k].Some? && i < |sections[k].value|
    ensures Covers(sections, TheItem(k, i), spots, PiecesOf(sections[k].value[i]))
  {
    match sections[k].value[i]
    case Line(text) =>
      spots := [LineAt(k, i)];
    case Rows(rows) =>
      RowPiecesAre(rows);
      spots := seq(|rows|, j requires 0 <= j < |rows| => RowAt(k, i, j));
      forall p | InDocument(sections, p) && p.section == k && !p.Marker? && p.item == i ensures p in spots {
        assert p == spots[p.row];
      }
  }

  lemma {:induction false} ItemsCovered(sections: seq<Section>, k: nat, n: nat) returns (spots: seq<Spot>)
    requires k < |sections| && sections[k].Some? && n <= |sections[k].value|
    ensures Covers(sections, ItemsUpTo(k, n), spots,
      ItemPieces(sections[k].value[..n]))
  {
    if n == 0 {
      spots := [];
    } else {
      var front := ItemsCovered(sections, k, n - 1);
      var last := ItemCovered(sections, k, n - 1);
      NextItem(sections[k].value, n - 1);
      spots := front + last;
      CoversBoth(sections, ItemsUpTo(k, n - 1), TheItem(k, n - 1), ItemsUpTo(k, n),
        front, last, ItemPieces(sections[k].value[..n - 1]), PiecesOf(sections[k].value[n - 1]));
    }
  }

  lemma SectionCovered(sections: seq<Section>, k: nat) returns (spots: seq<Spot>)
    requires k < |sections|
    ensures Covers(sections, TheSection(k), spots, SectionPieces(sections[k]))
  {
    var items: seq<Spot> := [];
    if sections[k].Some? {
      items := ItemsCovered(sections, k, |sections[k].value|);
      assert sections[k].value[..|sections[k].value|] == sections[k].value;
    }
    spots := [Marker(k)] + items;
    CoversBoth(sections, TheMarker(k), ItemsUpTo(k, if sections[k].Some? then |sections[k].value| else 0),
      TheSection(k),
      [Marker(k)], items, ["\n"], if sections[k].Some? then ItemPieces(sections[k].value) else []);
  }

  lemma {:induction false} SectionsCovered(sections: seq<Section>, k: nat) returns (spots: seq<Spot>)
    requires k <= |sections|
    ensures Covers(sections, SectionsUpTo(k), spots, Pieces(sections[..k]))
  {
    if k == 0 {
      spots := [];
    } else {
      var front := SectionsCovered(sections, k - 1);
      var last := SectionCovered(sections, k - 1);
      NextSection(sections, k - 1);
      spots := front + last;
      CoversBoth(sections, SectionsUpTo(k - 1), TheSection(k - 1), SectionsUpTo(k), front, last,
        Pieces(sections[..k - 1]), SectionPieces(sections[k - 1]));
    }
  }

  lemma PiecesAreLaid(sections: seq<Section>)
    ensures Laid(sections, Pieces(sections))
  {
    var spots := SectionsCovered(sections, |sections|);
    assert sections[..|sections|] == sections;
    assert Covers(sections, Whole, spots, Pieces(sections));
  }

  lemma HasFirst(spots: seq<Spot>)
    ensures spots != [] ==> exists p :: p in spots
  {
    if spots != [] {
      assert spots[0] in spots;
    }
  }

  lemma {:induction false} SameSpots(a: seq<Spot>, b: seq<Spot>)
    requires InOrder(a) && InOrder(b) && forall p :: p in a <==> p in b
    ensures a == b
  {
    HasFirst(a);
    HasFirst(b);
    if a != [] && b != [] {
      assert a[0] in b && b[0] in a;
      assert a[0] == b[0];
      forall p ensures p in a[1..] <==> p in b[1..] {
        assert p in a <==> p == a[0] || p in a[1..];
        assert p in b <==> p == b[0] || p in b[1..];
        assert a[0] !in a[1..] && b[0] !in b[1..];
      }
      SameSpots(a[1..], b[1..]);
      assert a == [a[0]] + a[1..] && b == [b[0]] + b[1..];
    }
  }

  /** A document has one list of pieces. */
  lemma LaidIsUnique(sections: seq<Section>, a: seq<string>, b: seq<string>)
    requires Laid(sections, a) && Laid(sections, b)
    ensures a == b
  {
    var sa :| Covers(sections, Whole, sa, a);
    var sb :| Covers(sections, Whole, sb, b);
    SameSpots(sa, sb);
    forall n | 0 <= n < |a| ensures a[n] == b[n] {
      OneShown(sections, sa[n], a[n], b[n]);
    }
  }

  lemma OneShown(sections: seq<Section>, p: Spot, a: string, b: string)
    requires InDocument(sections, p) && Shows(sections, p, a) && Shows(sections, p, b)
    ensures a == b
  {
  }

  /** A rendered comment is the longest prefix of the document's markers, lines and rows in order that stays
      below the limit less the overflow link; so it keeps within the limit, and nothing is dropped exactly when
      the whole document stays below. */
  lemma RenderedIsLongestPrefix(sections: seq<Section>, link: string, charLimit: nat)
      returns (text: string, pieces: seq<string>, n: nat)
    requires charLimit >= |link|
    ensures Rendered(sections, link, charLimit) == Text(text)
    ensures Laid(sections, pieces) && Fits(text, pieces, charLimit - |link|, link, n)
  {
    pieces := Pieces(sections);
    PiecesEnd(sections);
    PiecesAreLaid(sections);
    text, n := Joined(Trimmed(pieces, charLimit - |link|, link)), Fit(pieces, charLimit - |link|);
    TrimmedFits(pieces, charLimit - |link|, link);
  }

  /** Where a piece stands in a text that starts with all pieces up to it. */
  lemma PieceStands(pieces: seq<string>, m: nat, n: nat, tail: string)
    requires m < n <= |pieces|
    ensures var at := |Joined(pieces[..m])|;
      at + |pieces[m]| <= |Joined(pieces[..n])| &&
      (Joined(pieces[..n]) + tail)[at..at + |pieces[m]|] == pieces[m] &&
      |Joined(pieces[..m + 1])| == at + |pieces[m]|
  {
    JoinedLast(pieces[..m], pieces[m]);
    assert pieces[..m + 1] == pieces[..m] + [pieces[m]];
    JoinedOfBoth(pieces[..m + 1], pieces[m + 1..n]);
    assert pieces[..n] == pieces[..m + 1] + pieces[m + 1..n];
  }

  lemma SpotStands(sections: seq<Section>, pieces: seq<string>, spots: seq<Spot>, p: Spot)
      returns (i: nat, at: nat, to: nat)
    requires Covers(sections, Whole, spots, pieces) && InDocument(sections, p)
    ensures i < |pieces| && spots[i] == p && at <= to <= |Joined(pieces)| && Shows(sections, p, Joined(pieces)[at..to])
    ensures at == |Joined(pieces[..i])| && to == |Joined(pieces[..i + 1])|
  {
    assert p in spots;
    i :| 0 <= i < |spots| && spots[i] == p;
    assert pieces[..|pieces|] == pieces && Joined(pieces) + "" == Joined(pieces);
    PieceStands(pieces, i, |pieces|, "");
    at, to := |Joined(pieces[..i])|, |Joined(pieces[..i])| + |pieces[i]|;
  }

  lemma WholeIsShown(sections: seq<Section>, pieces: seq<string>, link: string, charLimit: nat)
    requires Laid(sections, pieces) && |Joined(pieces)| + |link| < charLimit
    ensures Rendered(sections, link, charLimit) == Text(Joined(pieces))
  {
    var text, all, n := RenderedIsLongestPrefix(sections, link, charLimit);
    LaidIsUnique(sections, pieces, all);
    assert pieces[..|pieces|] == pieces && Joined(pieces) + "" == Joined(pieces);
  }

  lemma SpotsKeepOrder(spots: seq<Spot>, i: nat, j: nat)
    requires InOrder(spots) && i < |spots| && j < |spots| && Precedes(spots[i], spots[j])
    ensures i < j
  {
  }

  /** Of a document below the limit less the link every marker, line and row is in the comment, in order. */
  lemma AllIsShown(sections: seq<Section>, pieces: seq<string>, link: string, charLimit: nat, p: Spot, q: Spot)
      returns (at: nat, to: nat, next: nat, end: nat)
    requires Laid(sections, pieces) && |Joined(pieces)| + |link| < charLimit
    requires InDocument(sections, p) && InDocument(sections, q) && Precedes(p, q)
    ensures Rendered(sections, link, charLimit) == Text(Joined(pieces))
    ensures at <= to <= next <= end <= |Joined(pieces)|
    ensures Shows(sections, p, Joined(pieces)[at..to]) && Shows(sections, q, Joined(pieces)[next..end])
  {
    WholeIsShown(sections, pieces, link, charLimit);
    var spots :| Covers(sections, Whole, spots, pieces);
    var i, a, t := SpotStands(sections, pieces, spots, p);
    var j, b, u := SpotStands(sections, pieces, spots, q);
    SpotsKeepOrder(spots, i, j);
    JoinedGrows(pieces, i + 1, j);
    at, to, next, end := a, t, b, u;
  }

  // ---------- recognising a comment ----------

  const IDENTIFIER := "[//]:#cxoneflow"

  function WithoutNewlines(text: string): string {
    if text == "" then ""
    else if text[0] == '\n' then WithoutNewlines(text[1..])
    else [text[0]] + WithoutNewlines(text[1..])
  }

  predicate Recognised(text: string) {
    IDENTIFIER <= WithoutNewlines(text)
  }

  function WithIdentifier(text: string): string {
    IDENTIFIER + "\n" + text
  }

  lemma {:induction false} WithoutNewlinesOfBoth(a: string, b: string)
    ensures WithoutNewlines(a + b) == WithoutNewlines(a) + WithoutNewlines(b)
  {
    if a == "" {
      assert a + b == b;
    } else {
      assert (a + b)[1..] == a[1..] + b;
      WithoutNewlinesOfBoth(a[1..], b);
    }
  }

  lemma {:induction false} WithoutNewlinesNone(a: string)
    requires '\n' !in a
    ensures WithoutNewlines(a) == a
  {
    if a != "" {
      WithoutNewlinesNone(a[1..]);
    }
  }

  lemma IdentifierRecognised(text: string)
    ensures Recognised(WithIdentifier(text))
  {
    WithoutNewlinesNone(IDENTIFIER);
    WithoutNewlinesOfBoth(IDENTIFIER + "\n", text);
    WithoutNewlinesOfBoth(IDENTIFIER, "\n");
  }

  /** The sections of a comment in the order of their markers. */
  function Document(header: string, annotation: seq<Item>, summary: seq<Item>, details: seq<Item>): seq<Section> {
    [Some([Line(IDENTIFIER)])] +
    [Some([Line(header)]), None, Some(annotation), None, Some(summary), None, Some(details), None]
  }

  lemma DocumentStarts(header: string, annotation: seq<Item>, summary: seq<Item>, details: seq<Item>)
      returns (more: seq<string>)
    ensures Pieces(Document(header, annotation, summary, details)) == ["\n", IDENTIFIER + "\n"] + more
    ensures more != []
  {
    var first: seq<Section> := [Some([Line(IDENTIFIER)])];
    var others: seq<Section> := [Some([Line(header)]), None, Some(annotation), None, Some(summary), None,
      Some(details), None];
    PiecesOfBoth(first, others);
    more := Pieces(others);
    assert first[..0] == [] && Pieces([]) == [];
    assert [Line(IDENTIFIER)][..0] == [] && ItemPieces([]) == [];
    assert ItemPieces([Line(IDENTIFIER)]) == [IDENTIFIER + "\n"];
    assert Pieces(first) == SectionPieces(first[0]);
    assert Document(header, annotation, summary, details) == first + others;
  }

  /** A rendered comment is recognised exactly when the limit leaves more than 17 characters beside the
      overflow link, unless the link itself reads like the identifier. */
  lemma RenderedRecognisedIff(header: string, annotation: seq<Item>, summary: seq<Item>, details: seq<Item>,
      link: string, charLimit: nat)
    requires charLimit >= |link|
    ensures var r := Rendered(Document(header, annotation, summary, details), link, charLimit);
      r.Text? && (Recognised(r.text) <==> charLimit - |link| > 17 || Recognised(link))
  {
    var more := DocumentStarts(header, annotation, summary, details);
    TrimmedRecognisedIff(more, charLimit - |link|, link);
  }

  lemma TrimmedRecognisedIff(more: seq<string>, max: nat, link: string)
    requires more != []
    ensures Recognised(Joined(Trimmed(["\n", IDENTIFIER + "\n"] + more, max, link))) <==> max > 17 || Recognised(link)
  {
    var head: seq<string> := ["\n", IDENTIFIER + "\n"];
    var pieces := head + more;
    var n := Fit(pieces, max);
    FitIsLongest(pieces, max);
    TrimmedText(pieces, max, link);
    JoinedOfTwo("\n", IDENTIFIER + "\n");
    assert pieces[..2] == head && pieces[..1] == ["\n"] && pieces[..0] == [];
    if n >= 2 {
      JoinedGrows(pieces, 2, n);
      HeadRecognised(more, n - 2, if n < |pieces| then link else "");
      assert pieces[..n] == head + more[..n - 2];
    } else {
      var kept := Joined(pieces[..n]);
      assert kept == "" || kept == "\n";
      WithoutNewlinesOfBoth(kept, link);
      assert kept[0..] == kept;
      assert WithoutNewlines(kept) == "";
      assert |Joined(head)| == 17;
    }
  }

  lemma HeadRecognised(more: seq<string>, k: nat, tail: string)
    requires k <= |more|
    ensures Recognised(Joined(["\n", IDENTIFIER + "\n"] + more[..k]) + tail)
  {
    var rest := Joined(more[..k]) + tail;
    JoinedOfTwo("\n", IDENTIFIER + "\n");
    JoinedOfBoth(["\n", IDENTIFIER + "\n"], more[..k]);
    assert Joined(["\n", IDENTIFIER + "\n"] + more[..k]) + tail == "\n" + WithIdentifier(rest);
    IdentifierRecognised(rest);
    WithoutNewlinesOfBoth("\n", WithIdentifier(rest));
  }

  lemma JoinedOfTwo(a: string, b: string)
    ensures Joined([a, b]) == a + b && Joined([a]) == a && Joined([]) == ""
  {
    JoinedLast([a], b);
    JoinedLast([], a);
    assert [] + [a] == [a] && [a] + [b] == [a, b];
  }

  /** What a prescan comment and an error comment say. */
  function PrescanContent(message: string, charLimit: nat): string {
    var content := WithIdentifier("*" + message + "*");
    if charLimit < |content| then content[..charLimit] else content
  }

  lemma PrescanRecognisedIff(message: string, charLimit: nat)
    ensures |PrescanContent(message, charLimit)| <= charLimit
    ensures Recognised(PrescanContent(message, charLimit)) <==> charLimit >= |IDENTIFIER|
  {
    CutRecognisedIff("\n*" + message + "*", charLimit);
    assert WithIdentifier("*" + message + "*") == IDENTIFIER + ("\n*" + message + "*");
  }

  lemma CutRecognisedIff(text: string, limit: nat)
    ensures var content := IDENTIFIER + text;
      Recognised(if limit < |content| then content[..limit] else content) <==> limit >= |IDENTIFIER|
  {
    WithoutNewlinesNone(IDENTIFIER);
    if limit < |IDENTIFIER| {
      assert (IDENTIFIER + text)[..limit] == IDENTIFIER[..limit];
      WithoutNewlinesNone(IDENTIFIER[..limit]);
    } else {
      var rest := if limit < |IDENTIFIER| + |text| then text[..limit - |IDENTIFIER|] else text;
      WithoutNewlinesOfBoth(IDENTIFIER, rest);
      assert limit < |IDENTIFIER| + |text| ==> (IDENTIFIER + text)[..limit] == IDENTIFIER + rest;
    }
  }
}
