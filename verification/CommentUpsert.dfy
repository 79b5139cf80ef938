/** The one comment a pull request on BitBucket Cloud gets: pages of comments read backwards,
    a search for the comment that is ours, and its replacement. */
module CommentUpsert {
  import opened Comments
  import opened Common

  datatype Comment = Comment(id: nat, raw: Option<string>)

  /** One answer of the listing; `more`: it names a next page. */
  datatype Page = Page(values: Option<seq<Comment>>, more: bool)

  predicate Ours(c: Comment) {
    c.raw.Some? && Recognised(c.raw.value)
  }

  // ---------- paging ----------

  function Answer(pages: seq<Page>, n: nat): Page {
    if 1 <= n <= |pages| then pages[n - 1] else Page(None, false)
  }

  predicate Empty(p: Page) {
    p.values.None? || p.values.value == []
  }

  /** What is yielded from page `n` on. */
  function Yielded(pages: seq<Page>, n: nat): seq<Comment>
    decreases |pages| + 1 - n
  {
    var p := Answer(pages, n);
    if Empty(p) then []
    else if p.more then Drained(p.values.value) + Yielded(pages, n + 1)
    else Drained(p.values.value)
  }

  class PageGen {
    const pages: seq<Page>
    var fetchPage: nat
    var buf: seq<Comment>
    var end: bool
    var returned: bool

    constructor (pages: seq<Page>)
      ensures Remaining() == Yielded(pages, 1)
    {
      this.pages := pages;
      fetchPage, buf, end, returned := 1, [], false, false;
    }

    ghost function Remaining(): seq<Comment> reads this {
      if returned then [] else Drained(buf) + Later()
    }

    ghost function Later(): seq<Comment> reads this {
      if end then [] else Yielded(pages, fetchPage)
    }

    /** Up to the next comment to yield, or the end. */
    method Advance()
      requires !returned
      modifies this
      ensures Remaining() == old(Remaining()) && (returned || buf != [])
    {
      if |buf| == 0 && !end {
        var page := Answer(pages, fetchPage);
        assert Drained([]) + Later() == Yielded(pages, fetchPage);
        if Empty(page) {
          returned := true;
          return;
        }
        assert Drained(page.values.value) + [] == Drained(page.values.value);
        buf := page.values.value;
        if !page.more {
          end := true;
        } else {
          fetchPage := fetchPage + 1;
        }
      } else if |buf| == 0 && end {
        returned := true;
      }
    }

    method Next() returns (r: Option<Comment>)
      modifies this
      ensures old(Remaining()) == [] ==> r == None && Remaining() == []
      ensures old(Remaining()) != [] ==> r == Some(old(Remaining())[0]) && Remaining() == old(Remaining())[1..]
    {
      if !returned {
        Advance();
      }
      if returned {
        return None;
      }
      Popped(buf, Later());
      r := Some(buf[|buf| - 1]);
      buf := buf[..|buf| - 1];
    }
  }

  function FirstOurs(s: seq<Comment>): Option<nat> {
    if s == [] then None else if Ours(s[0]) then Some(s[0].id) else FirstOurs(s[1..])
  }

  lemma FirstOursOf(c: Comment, rest: seq<Comment>)
    ensures FirstOurs([c] + rest) == if Ours(c) then Some(c.id) else FirstOurs(rest)
  {
    assert ([c] + rest)[1..] == rest;
  }

  method FindExistingComment(pages: seq<Page>) returns (id: Option<nat>)
    ensures id == FirstOurs(Yielded(pages, 1))
  {
    var gen := new PageGen(pages);
    ghost var all := gen.Remaining();
    var c := gen.Next();
    while c.Some?
      invariant fresh(gen)
      invariant c.Some? ==> FirstOurs(all) == FirstOurs([c.value] + gen.Remaining())
      invariant c.None? ==> FirstOurs(all) == None
      decreases if c.Some? then |gen.Remaining()| + 1 else 0
    {
      ghost var rest := gen.Remaining();
      FirstOursOf(c.value, rest);
      if Ours(c.value) {
        return Some(c.value.id);
      }
      c := gen.Next();
      assert c.Some? ==> [c.value] + gen.Remaining() == rest;
    }
    id := None;
  }

  // ---------- when every comment is seen ----------

  /** The comments of the pages from `n` on. */
  function Listed(pages: seq<Page>, n: nat): seq<Comment>
    decreases |pages| + 1 - n
  {
    if n == 0 || n > |pages| then []
    else (if Empty(pages[n - 1]) then [] else pages[n - 1].values.value) + Listed(pages, n + 1)
  }

  /** Every page but the last names a next one. */
  predicate Chained(pages: seq<Page>) {
    forall i :: 0 <= i < |pages| ==> (pages[i].more <==> i < |pages| - 1)
  }

  predicate NoGap(pages: seq<Page>, n: nat) {
    forall i, j :: 0 <= n - 1 <= i < j < |pages| && Empty(pages[i]) ==> Empty(pages[j])
  }

  lemma {:induction false} DrainedSame(s: seq<Comment>)
    ensures multiset(Drained(s)) == multiset(s)
  {
    if s != [] {
      DrainedSame(s[..|s| - 1]);
      assert s == s[..|s| - 1] + [s[|s| - 1]];
    }
  }

  predicate AllEmpty(pages: seq<Page>, n: nat) {
    forall j :: 0 <= n - 1 <= j < |pages| ==> Empty(pages[j])
  }

  lemma {:induction false} NothingListed(pages: seq<Page>, n: nat)
    requires 1 <= n
    ensures Listed(pages, n) == [] <==> AllEmpty(pages, n)
    decreases |pages| + 1 - n
  {
    if n <= |pages| {
      NothingListed(pages, n + 1);
      if AllEmpty(pages, n + 1) && Empty(pages[n - 1]) {
        assert AllEmpty(pages, n);
      }
    }
  }

  ghost predicate Complete(pages: seq<Page>, n: nat) {
    multiset(Yielded(pages, n)) == multiset(Listed(pages, n))
  }

  /** The generator yields every listed comment exactly when no page with comments follows an empty one. */
  lemma {:induction false} CompleteIff(pages: seq<Page>, n: nat)
    requires Chained(pages) && 1 <= n <= |pages| + 1
    ensures Complete(pages, n) <==> NoGap(pages, n)
    decreases |pages| + 1 - n
  {
    if n == |pages| + 1 {
      AtEnd(pages, n);
    } else if Empty(pages[n - 1]) {
      AtEmpty(pages, n);
    } else {
      CompleteIff(pages, n + 1);
      AtFull(pages, n);
    }
  }

  lemma AtEnd(pages: seq<Page>, n: nat)
    requires n == |pages| + 1
    ensures Complete(pages, n) && NoGap(pages, n)
  {
  }

  lemma AtEmpty(pages: seq<Page>, n: nat)
    requires 1 <= n <= |pages| && Empty(pages[n - 1])
    ensures Complete(pages, n) <==> NoGap(pages, n)
  {
    NothingListed(pages, n);
    var all := Listed(pages, n);
    if all != [] {
      assert all[0] in multiset(all);
    }
    assert NoGap(pages, n) <==> AllEmpty(pages, n);
  }

  lemma AtFull(pages: seq<Page>, n: nat)
    requires Chained(pages) && 1 <= n <= |pages| && !Empty(pages[n - 1])
    ensures Complete(pages, n) <==> Complete(pages, n + 1)
    ensures NoGap(pages, n) <==> NoGap(pages, n + 1)
  {
    var here, rest, all := pages[n - 1].values.value, Yielded(pages, n + 1), Listed(pages, n + 1);
    DrainedSame(here);
    YieldsHere(pages, n);
    assert Listed(pages, n) == here + all;
    assert multiset(here + all) == multiset(here) + multiset(all);
    assert multiset(Drained(here) + rest) == multiset(Drained(here)) + multiset(rest);
    SameRest(multiset(here), multiset(rest), multiset(all));
    assert NoGap(pages, n + 1) ==> NoGap(pages, n);
  }

  lemma YieldsHere(pages: seq<Page>, n: nat)
    requires Chained(pages) && 1 <= n <= |pages| && !Empty(pages[n - 1])
    ensures Yielded(pages, n) == Drained(pages[n - 1].values.value) + Yielded(pages, n + 1)
  {
    if n == |pages| {
      assert Yielded(pages, n + 1) == [];
      assert Drained(pages[n - 1].values.value) + [] == Drained(pages[n - 1].values.value);
    }
  }

  lemma SameRest(a: multiset<Comment>, b: multiset<Comment>, c: multiset<Comment>)
    ensures a + b == a + c <==> b == c
  {
    if a + b == a + c {
      forall x ensures b[x] == c[x] {
        assert (a + b)[x] == a[x] + b[x] && (a + c)[x] == a[x] + c[x];
      }
    }
  }

  // ---------- creating or updating ----------

  datatype Thread = Thread(comments: seq<Comment>, nextId: nat)

  function Rewritten(comments: seq<Comment>, id: nat, text: string): seq<Comment> {
    if comments == [] then []
    else
      var c := comments[|comments| - 1];
      Rewritten(comments[..|comments| - 1], id, text) + [if c.id == id then Comment(id, Some(text)) else c]
  }

  function Posted(t: Thread, text: string): Thread {
    Thread(t.comments + [Comment(t.nextId, Some(text))], t.nextId + 1)
  }

  function Upserted(t: Thread, found: Option<nat>, text: string, ok: bool): Thread {
    if !ok then t
    else match found
      case None => Posted(t, text)
      case Some(id) => t.(comments := Rewritten(t.comments, id, text))
  }

  /** The comments the service keeps for a pull request; a refused request changes nothing. */
  class Remote {
    var thread: Thread

    method Post(text: string, ok: bool)
      modifies this
      ensures thread == if ok then Posted(old(thread), text) else old(thread)
    {
      if ok {
        thread := Posted(thread, text);
      }
    }

    method Put(id: nat, text: string, ok: bool)
      modifies this
      ensures thread == if ok then old(thread).(comments := Rewritten(old(thread).comments, id, text)) else old(thread)
    {
      if ok {
        thread := thread.(comments := Rewritten(thread.comments, id, text));
      }
    }
  }

  method CreateOrUpdateComment(remote: Remote, pages: seq<Page>, markdown: string, ok: bool)
    modifies remote
    ensures remote.thread == Upserted(old(remote.thread), FirstOurs(Yielded(pages, 1)), markdown, ok)
  {
    var existing := FindExistingComment(pages);
    if existing.None? {
      remote.Post(markdown, ok);
    } else {
      remote.Put(existing.value, markdown, ok);
    }
  }

  // ---------- events of a pull request ----------

  const MAX_CONTENT_CHARS: nat := 32767

  datatype Event =
    | Decorate(header: string, annotation: seq<Item>, summary: seq<Item>, details: seq<Item>, link: string)
    | PrescanEvent(message: string)
    | ErrorEvent(message: string)

  function BodyOf(e: Event): Rendering {
    match e
    case Decorate(header, annotation, summary, details, link) =>
      Rendered(Document(header, annotation, summary, details), link, MAX_CONTENT_CHARS)
    case PrescanEvent(message) => Text(PrescanContent(message, MAX_CONTENT_CHARS))
    case ErrorEvent(message) => Text(WithIdentifier(message))
  }

  /** What a decoration has written: the identifier, the header, the annotation, the summary and the details, each
      section after its marker and in this order, cut to fit; nothing only when the link is beyond the limit. */
  lemma DecorationSays(header: string, annotation: seq<Item>, summary: seq<Item>, details: seq<Item>, link: string)
      returns (pieces: seq<string>, n: nat)
    ensures var body := BodyOf(Decorate(header, annotation, summary, details, link));
      (body.Text? <==> |link| <= 32767) && (body.Text? ==> Fits(body.text, pieces, 32767 - |link|, link, n))
    ensures Laid([Some([Line("[//]:#cxoneflow")]), Some([Line(header)]), None, Some(annotation), None, Some(summary),
      None, Some(details), None], pieces)
  {
    var sections := [Some([Line("[//]:#cxoneflow")]), Some([Line(header)]), None, Some(annotation), None, Some(summary),
      None, Some(details), None];
    assert Document(header, annotation, summary, details) == sections;
    if |link| <= 32767 {
      var _, all, k := RenderedIsLongestPrefix(sections, link, MAX_CONTENT_CHARS);
      pieces, n := all, k;
    } else {
      pieces, n := Pieces(sections), 0;
      PiecesAreLaid(sections);
    }
  }

  /** What the other events have written: the identifier, and after it the message, of a prescan emphasised and
      cut to the limit, and of an error as it is. */
  lemma MessagesSay(message: string)
    ensures BodyOf(PrescanEvent(message)) == Text(
      ("[//]:#cxoneflow\n*" + message + "*")[..Min(32767, |message| + 18)])
    ensures BodyOf(ErrorEvent(message)) == Text("[//]:#cxoneflow\n" + message)
  {
    var content := "[//]:#cxoneflow\n*" + message + "*";
    assert WithIdentifier("*" + message + "*") == content;
    assert content[..|content|] == content;
    assert WithIdentifier(message) == "[//]:#cxoneflow\n" + message;
  }

  /** The overflow link leaves room for the identifier, or leaves no comment at all. */
  predicate Sound(e: Event) {
    e.Decorate? ==> MAX_CONTENT_CHARS - |e.link| > 17 || |e.link| > MAX_CONTENT_CHARS || Recognised(e.link)
  }

  lemma SoundIffRecognised(e: Event)
    ensures Sound(e) <==> (BodyOf(e).Text? ==> Recognised(BodyOf(e).text))
  {
    match e
    case Decorate(header, annotation, summary, details, link) =>
      if |link| <= MAX_CONTENT_CHARS {
        RenderedRecognisedIff(header, annotation, summary, details, link, MAX_CONTENT_CHARS);
      }
    case PrescanEvent(message) => PrescanRecognisedIff(message, MAX_CONTENT_CHARS);
    case ErrorEvent(message) => IdentifierRecognised(message);
  }

  /** An event, with how the service lists the comments and whether it takes the write; or what others have
      made of the thread in between. */
  datatype Act = Act(event: Event, pages: seq<Page>, ok: bool) | Elsewhere(after: Thread)

  predicate Writes(a: Act) {
    a.Act? && a.ok && BodyOf(a.event).Text?
  }

  function After(t: Thread, a: Act): Thread {
    if a.Elsewhere? then a.after
    else if BodyOf(a.event).Text? then
      Upserted(t, FirstOurs(Yielded(a.pages, 1)), BodyOf(a.event).text, a.ok)
    else t
  }

  ghost predicate Lists(pages: seq<Page>, comments: seq<Comment>) {
    Chained(pages) && NoGap(pages, 1) && multiset(Listed(pages, 1)) == multiset(comments)
  }

  /** Others may add, change and delete comments, but none that reads as ours. */
  ghost predicate Possible(t: Thread, a: Act) {
    match a
    case Act(_, pages, _) => Lists(pages, t.comments)
    case Elsewhere(u) => Distinct(u) && u.nextId >= t.nextId && Marked(u.comments) == Marked(t.comments)
  }

  ghost predicate Behaviour(threads: seq<Thread>, acts: seq<Act>) {
    |threads| == |acts| + 1 && Distinct(threads[0]) &&
    forall k :: 0 <= k < |acts| ==> Possible(threads[k], acts[k]) && threads[k + 1] == After(threads[k], acts[k])
  }

  ghost predicate Distinct(t: Thread) {
    (forall i :: 0 <= i < |t.comments| ==> t.comments[i].id < t.nextId) &&
    forall i, j :: 0 <= i < j < |t.comments| ==> t.comments[i].id != t.comments[j].id
  }

  function Marked(comments: seq<Comment>): seq<Comment> {
    if comments == [] then []
    else
      var c := comments[|comments| - 1];
      Marked(comments[..|comments| - 1]) + if Ours(c) then [c] else []
  }

  function Others(comments: seq<Comment>): seq<Comment> {
    if comments == [] then []
    else
      var c := comments[|comments| - 1];
      Others(comments[..|comments| - 1]) + if Ours(c) then [] else [c]
  }

  /** The search ends at the first comment that is ours. */
  lemma {:induction false} FirstOursIs(s: seq<Comment>)
    ensures FirstOurs(s) == None <==> forall c :: c in s ==> !Ours(c)
    ensures FirstOurs(s).Some? ==> exists k :: IsFirstOurs(s, k) && s[k].id == FirstOurs(s).value
  {
    if s != [] && !Ours(s[0]) {
      FirstOursIs(s[1..]);
      if FirstOurs(s).Some? {
        var k :| IsFirstOurs(s[1..], k) && s[1..][k].id == FirstOurs(s).value;
        assert IsFirstOurs(s, k + 1);
      }
    } else if s != [] {
      assert IsFirstOurs(s, 0);
    }
  }

  ghost predicate IsFirstOurs(s: seq<Comment>, k: int) {
    0 <= k < |s| && Ours(s[k]) && forall j :: 0 <= j < k ==> !Ours(s[j])
  }

  lemma {:induction false} MarkedIs(comments: seq<Comment>)
    ensures forall c :: c in Marked(comments) <==> c in comments && Ours(c)
  {
    if comments != [] {
      MarkedIs(comments[..|comments| - 1]);
      assert comments == comments[..|comments| - 1] + [comments[|comments| - 1]];
    }
  }

  lemma {:induction false} RewrittenMarks(comments: seq<Comment>, id: nat, text: string)
    requires Recognised(text) && forall c :: c in comments && c.id == id ==> Ours(c)
    ensures Marked(Rewritten(comments, id, text)) == Rewritten(Marked(comments), id, text)
    ensures |Marked(Rewritten(comments, id, text))| == |Marked(comments)|
    ensures Others(Rewritten(comments, id, text)) == Others(comments)
  {
    if comments != [] {
      var front, c := comments[..|comments| - 1], comments[|comments| - 1];
      assert comments == front + [c];
      RewrittenMarks(front, id, text);
      var d := if c.id == id then Comment(id, Some(text)) else c;
      assert Ours(d) <==> Ours(c);
      MarkedMore(Rewritten(front, id, text), d);
      MarkedMore(front, c);
      RewrittenMore(Marked(front), c, id, text);
    }
  }

  lemma MarkedMore(comments: seq<Comment>, c: Comment)
    ensures Marked(comments + [c]) == if Ours(c) then Marked(comments) + [c] else Marked(comments)
    ensures Others(comments + [c]) == if Ours(c) then Others(comments) else Others(comments) + [c]
  {
    assert (comments + [c])[..|comments|] == comments;
  }

  lemma RewrittenMore(comments: seq<Comment>, c: Comment, id: nat, text: string)
    ensures Rewritten(comments + [c], id, text) ==
      Rewritten(comments, id, text) + [if c.id == id then Comment(id, Some(text)) else c]
  {
    assert (comments + [c])[..|comments|] == comments;
  }

  // ---------- runs ----------

  /** The search finds the id of one of our comments exactly when there is one. */
  lemma SearchFinds(pages: seq<Page>, comments: seq<Comment>)
    requires Lists(pages, comments)
    ensures var found := FirstOurs(Yielded(pages, 1));
      (found == None <==> Marked(comments) == []) &&
      (found.Some? ==> exists c :: c in Marked(comments) && c.id == found.value)
  {
    CompleteIff(pages, 1);
    var ys := Yielded(pages, 1);
    FirstOursIs(ys);
    MarkedIs(comments);
    assert forall c :: c in ys <==> c in multiset(ys);
    assert forall c :: c in comments <==> c in multiset(comments);
    if Marked(comments) != [] {
      assert Marked(comments)[0] in Marked(comments);
    }
  }

  ghost predicate OnlyOne(t: Thread, id: nat, text: string) {
    Marked(t.comments) == [Comment(id, Some(text))]
  }

  /** One written event whose body is recognised: creates our comment where there is none, else rewrites one
      of them and no comment of anybody else. */
  lemma WriteKeeps(t: Thread, a: Act)
    requires Distinct(t) && Writes(a) && Lists(a.pages, t.comments) && Sound(a.event)
    ensures var u, text := After(t, a), BodyOf(a.event).text;
      Others(u.comments) == Others(t.comments) &&
      |Marked(u.comments)| == (if Marked(t.comments) == [] then 1 else |Marked(t.comments)|) &&
      (Marked(t.comments) == [] ==> OnlyOne(u, t.nextId, text)) &&
      (|Marked(t.comments)| == 1 ==> OnlyOne(u, Marked(t.comments)[0].id, text))
  {
    var text, found := BodyOf(a.event).text, FirstOurs(Yielded(a.pages, 1));
    SoundIffRecognised(a.event);
    SearchFinds(a.pages, t.comments);
    if found.None? {
      PostKeeps(t, text);
      assert After(t, a) == Posted(t, text);
    } else {
      RewriteKeeps(t.comments, found.value, text);
      assert After(t, a).comments == Rewritten(t.comments, found.value, text);
    }
  }

  lemma PostKeeps(t: Thread, text: string)
    requires Recognised(text) && Marked(t.comments) == []
    ensures Others(Posted(t, text).comments) == Others(t.comments) && OnlyOne(Posted(t, text), t.nextId, text)
  {
    MarkedMore(t.comments, Comment(t.nextId, Some(text)));
  }

  /** One written event whose body is not recognised leaves no comment of ours where there was at most one. */
  lemma WriteLoses(t: Thread, a: Act)
    requires Distinct(t) && Writes(a) && Lists(a.pages, t.comments) && !Sound(a.event) && |Marked(t.comments)| <= 1
    ensures Marked(After(t, a).comments) == []
  {
    SoundIffRecognised(a.event);
    SearchFinds(a.pages, t.comments);
    if FirstOurs(Yielded(a.pages, 1)).None? {
      MarkedMore(t.comments, Comment(t.nextId, Some(BodyOf(a.event).text)));
    } else {
      RewriteLoses(t.comments, FirstOurs(Yielded(a.pages, 1)).value, BodyOf(a.event).text);
    }
  }

  /** A written event posts exactly where there is no comment of ours. */
  lemma WritePostsIff(t: Thread, a: Act)
    requires Writes(a) && Lists(a.pages, t.comments)
    ensures |After(t, a).comments| == |t.comments| + One(Marked(t.comments) == [])
  {
    SearchFinds(a.pages, t.comments);
    if FirstOurs(Yielded(a.pages, 1)).Some? {
      RewrittenIds(t.comments, FirstOurs(Yielded(a.pages, 1)).value, BodyOf(a.event).text);
    }
  }

  lemma RewriteKeeps(comments: seq<Comment>, id: nat, text: string)
    requires forall i, j :: 0 <= i < j < |comments| ==> comments[i].id != comments[j].id
    requires Recognised(text) && exists c :: c in Marked(comments) && c.id == id
    ensures var out := Rewritten(comments, id, text);
      Others(out) == Others(comments) && |Marked(out)| == |Marked(comments)| &&
      (|Marked(comments)| == 1 ==> Marked(out) == [Comment(id, Some(text))] && Marked(comments)[0].id == id)
  {
    MarkedIs(comments);
    var m := Marked(comments);
    var c :| c in m && c.id == id;
    OneOfId(comments, c);
    RewrittenMarks(comments, id, text);
    if |m| == 1 {
      RewrittenOne(c, text);
      assert m == [c];
    }
  }

  lemma RewriteLoses(comments: seq<Comment>, id: nat, text: string)
    requires !Recognised(text) && |Marked(comments)| <= 1 && exists c :: c in Marked(comments) && c.id == id
    ensures Marked(Rewritten(comments, id, text)) == []
  {
    var out := Rewritten(comments, id, text);
    RewrittenIds(comments, id, text);
    forall i | 0 <= i < |out| ensures !Ours(out[i]) {
      if Ours(comments[i]) {
        OnlyOursHasId(comments, id, i);
      }
    }
    NoneMarked(out);
  }

  lemma OnlyOursHasId(comments: seq<Comment>, id: nat, i: nat)
    requires |Marked(comments)| <= 1 && (exists c :: c in Marked(comments) && c.id == id)
    requires i < |comments| && Ours(comments[i])
    ensures comments[i].id == id
  {
    MarkedIs(comments);
    assert comments[i] in Marked(comments);
  }

  lemma {:induction false} NoneMarked(comments: seq<Comment>)
    requires forall i :: 0 <= i < |comments| ==> !Ours(comments[i])
    ensures Marked(comments) == []
  {
    if comments != [] {
      NoneMarked(comments[..|comments| - 1]);
    }
  }

  lemma OneOfId(comments: seq<Comment>, c: Comment)
    requires forall i, j :: 0 <= i < j < |comments| ==> comments[i].id != comments[j].id
    requires c in comments
    ensures forall e :: e in comments && e.id == c.id ==> e == c
  {
  }

  lemma RewrittenOne(c: Comment, text: string)
    ensures Rewritten([c], c.id, text) == [Comment(c.id, Some(text))]
  {
    assert [c][..0] == [];
    assert Rewritten([], c.id, text) == [];
  }

  lemma {:induction false} RewrittenIds(comments: seq<Comment>, id: nat, text: string)
    ensures |Rewritten(comments, id, text)| == |comments|
    ensures forall i :: 0 <= i < |comments| ==>
      Rewritten(comments, id, text)[i] == if comments[i].id == id then Comment(id, Some(text)) else comments[i]
  {
    if comments != [] {
      RewrittenIds(comments[..|comments| - 1], id, text);
    }
  }

  lemma DistinctKeeps(t: Thread, a: Act)
    requires Distinct(t) && Possible(t, a)
    ensures Distinct(After(t, a))
  {
    if Writes(a) && FirstOurs(Yielded(a.pages, 1)).Some? {
      RewrittenIds(t.comments, FirstOurs(Yielded(a.pages, 1)).value, BodyOf(a.event).text);
    }
  }

  lemma {:induction false} AlwaysDistinct(threads: seq<Thread>, acts: seq<Act>, k: nat)
    requires Behaviour(threads, acts) && k < |threads|
    ensures Distinct(threads[k])
  {
    if k > 0 {
      AlwaysDistinct(threads, acts, k - 1);
      DistinctKeeps(threads[k - 1], acts[k - 1]);
    }
  }

  /** The body of the last event that was written. */
  function LastBody(acts: seq<Act>): Option<string> {
    if acts == [] then None
    else if Writes(acts[|acts| - 1]) then Some(BodyOf(acts[|acts| - 1].event).text)
    else LastBody(acts[..|acts| - 1])
  }

  lemma LastBodyMore(acts: seq<Act>, a: Act)
    ensures LastBody(acts + [a]) == if Writes(a) then Some(BodyOf(a.event).text) else LastBody(acts)
  {
    assert (acts + [a])[..|acts|] == acts;
  }

  ghost predicate AllSound(acts: seq<Act>) {
    forall i :: 0 <= i < |acts| && acts[i].Act? ==> Sound(acts[i].event)
  }

  /** What our comments are after a run of sound events: no more than before, or one; and from none, one of
      this id with the last written body. */
  ghost predicate Stands(t: Thread, before: nat, last: Option<string>, id: nat) {
    |Marked(t.comments)| <= (if before > 1 then before else 1) &&
    (before == 0 ==> if last.Some? then OnlyOne(t, id, last.value) else Marked(t.comments) == [])
  }

  lemma StandsOn(t: Thread, a: Act, before: nat, last: Option<string>, id: nat)
    requires Distinct(t) && Possible(t, a) && (a.Act? ==> Sound(a.event)) && Stands(t, before, last, id)
    ensures Stands(After(t, a), before, if Writes(a) then Some(BodyOf(a.event).text) else last,
      if last.Some? then id else t.nextId)
  {
    if Writes(a) {
      WriteKeeps(t, a);
    }
  }

  /** The id that the first written event gave its comment. */
  ghost function FirstId(threads: seq<Thread>, acts: seq<Act>, k: nat): nat
    requires |threads| == |acts| + 1 && k < |threads|
  {
    if k == 0 then 0
    else if LastBody(acts[..k - 1]).Some? then FirstId(threads, acts, k - 1)
    else threads[k - 1].nextId
  }

  /** Over any sequence of sound events, refused writes and comments of others among them: our comments never
      get more than they were, or one; and from none, the first written event makes one comment whose id
      stays and whose body is that of the last written event. */
  lemma {:induction false} OneCommentPerThread(threads: seq<Thread>, acts: seq<Act>, k: nat)
    requires Behaviour(threads, acts) && k < |threads| && AllSound(acts)
    ensures Stands(threads[k], |Marked(threads[0].comments)|, LastBody(acts[..k]), FirstId(threads, acts, k))
  {
    if k == 0 {
      assert acts[..0] == [];
    } else {
      var before, last := |Marked(threads[0].comments)|, LastBody(acts[..k - 1]);
      OneCommentPerThread(threads, acts, k - 1);
      AlwaysDistinct(threads, acts, k - 1);
      LastBodyMore(acts[..k - 1], acts[k - 1]);
      assert acts[..k] == acts[..k - 1] + [acts[k - 1]];
      StandsOn(threads[k - 1], acts[k - 1], before, last, FirstId(threads, acts, k - 1));
    }
  }

  /** A sound event never changes a comment that is not ours. */
  lemma OthersAreKept(threads: seq<Thread>, acts: seq<Act>, k: nat)
    requires Behaviour(threads, acts) && k < |acts| && acts[k].Act? && Sound(acts[k].event)
    ensures Others(threads[k + 1].comments) == Others(threads[k].comments)
  {
    AlwaysDistinct(threads, acts, k);
    if Writes(acts[k]) {
      WriteKeeps(threads[k], acts[k]);
    }
  }

  // ---------- runs of any events ----------

  /** The last written event left a body that the search will find. */
  predicate Found(acts: seq<Act>) {
    acts != [] &&
    var last := acts[|acts| - 1];
    if Writes(last) then Sound(last.event) else Found(acts[..|acts| - 1])
  }

  /** The writes made when the search finds nothing. */
  function Posts(acts: seq<Act>): nat {
    if acts == [] then 0
    else
      var front, last := acts[..|acts| - 1], acts[|acts| - 1];
      Posts(front) + One(Writes(last) && !Found(front))
  }

  /** By how many comments others have lengthened the thread, or shortened it. */
  ghost function Drift(threads: seq<Thread>, acts: seq<Act>, k: nat): int
    requires |threads| == |acts| + 1 && k < |threads|
  {
    if k == 0 then 0
    else if acts[k - 1].Elsewhere? then
      Drift(threads, acts, k - 1) + |threads[k].comments| - |threads[k - 1].comments|
    else Drift(threads, acts, k - 1)
  }

  lemma PrefixMore(acts: seq<Act>, k: nat)
    requires 0 < k <= |acts|
    ensures var front, a := acts[..k - 1], acts[k - 1];
      Found(acts[..k]) == (if Writes(a) then Sound(a.event) else Found(front)) &&
      Posts(acts[..k]) == Posts(front) + One(Writes(a) && !Found(front))
  {
    assert acts[..k][..k - 1] == acts[..k - 1];
  }

  /** Over any sequence of events from a thread without a comment of ours: there is one exactly while the last
      written event was sound, and each event written while there is none adds a comment. */
  lemma {:induction false} PostsAreCounted(threads: seq<Thread>, acts: seq<Act>, k: nat)
    requires Behaviour(threads, acts) && k < |threads| && Marked(threads[0].comments) == []
    ensures |Marked(threads[k].comments)| == One(Found(acts[..k]))
    ensures |threads[k].comments| == |threads[0].comments| + Posts(acts[..k]) + Drift(threads, acts, k)
  {
    if k > 0 {
      var t, a := threads[k - 1], acts[k - 1];
      PostsAreCounted(threads, acts, k - 1);
      AlwaysDistinct(threads, acts, k - 1);
      PrefixMore(acts, k);
      if Writes(a) {
        WritePostsIff(t, a);
        if Sound(a.event) {
          WriteKeeps(t, a);
        } else {
          WriteLoses(t, a);
        }
      }
    }
  }

  /** Every written event before another written one is sound. */
  ghost predicate SoundButTheLast(acts: seq<Act>) {
    forall i, j :: 0 <= i < j < |acts| && Writes(acts[i]) && Writes(acts[j]) ==> Sound(acts[i].event)
  }

  ghost predicate NoneWritten(acts: seq<Act>) {
    forall i :: 0 <= i < |acts| ==> !Writes(acts[i])
  }

  lemma {:induction false} NoPostIff(acts: seq<Act>)
    ensures Posts(acts) == 0 <==> NoneWritten(acts)
    ensures NoneWritten(acts) ==> !Found(acts)
  {
    if acts != [] {
      var front, last := acts[..|acts| - 1], acts[|acts| - 1];
      NoPostIff(front);
      assert acts == front + [last];
    }
  }

  ghost predicate AllWrittenSound(acts: seq<Act>) {
    forall i :: 0 <= i < |acts| && Writes(acts[i]) ==> Sound(acts[i].event)
  }

  lemma LastDecides(front: seq<Act>, last: Act)
    ensures SoundButTheLast(front + [last]) <==>
      SoundButTheLast(front) && (Writes(last) ==> AllWrittenSound(front))
  {
    var acts := front + [last];
    if SoundButTheLast(acts) {
      forall i, j | 0 <= i < j < |front| && Writes(front[i]) && Writes(front[j]) ensures Sound(front[i].event) {
        assert acts[i] == front[i] && acts[j] == front[j];
      }
      forall i | 0 <= i < |front| && Writes(last) && Writes(front[i]) ensures Sound(front[i].event) {
        assert acts[i] == front[i] && acts[|front|] == last;
      }
    }
  }

  lemma WrittenMore(front: seq<Act>, last: Act)
    ensures NoneWritten(front + [last]) <==> NoneWritten(front) && !Writes(last)
    ensures AllWrittenSound(front + [last]) <==> AllWrittenSound(front) && (Writes(last) ==> Sound(last.event))
  {
    var acts := front + [last];
    assert acts[|front|] == last && forall i :: 0 <= i < |front| ==> acts[i] == front[i];
  }

  /** When only the last written event may be unsound, the search finds exactly when that one is not. */
  lemma {:induction false} FoundIff(acts: seq<Act>)
    requires SoundButTheLast(acts) && !NoneWritten(acts)
    ensures Found(acts) <==> AllWrittenSound(acts)
  {
    var front, last := acts[..|acts| - 1], acts[|acts| - 1];
    assert acts == front + [last];
    LastDecides(front, last);
    WrittenMore(front, last);
    if !Writes(last) {
      FoundIff(front);
    }
  }

  /** Exactly when a run of any events posts at most one comment: when every written event before another
      written one is sound. */
  lemma {:induction false} PostsOnceIff(acts: seq<Act>)
    ensures Posts(acts) <= 1 <==> SoundButTheLast(acts)
  {
    if acts != [] {
      var front, last := acts[..|acts| - 1], acts[|acts| - 1];
      assert acts == front + [last];
      PostsOnceIff(front);
      NoPostIff(front);
      LastDecides(front, last);
      if SoundButTheLast(front) && !NoneWritten(front) {
        FoundIff(front);
      }
    }
  }

  /** At its smallest: a second event updates the comment of the first exactly when that one is sound. */
  lemma SecondEventUpdatesIff(t: Thread, a: Act, b: Act)
    requires t.comments == [] && Writes(a) && Writes(b)
    requires Lists(a.pages, []) && Lists(b.pages, After(t, a).comments)
    ensures |After(After(t, a), b).comments| == (if Sound(a.event) then 1 else 2)
  {
    var u := After(t, a);
    WritePostsIff(t, a);
    WritePostsIff(u, b);
    if Sound(a.event) {
      WriteKeeps(t, a);
    } else {
      WriteLoses(t, a);
    }
  }
}
