/** Routing keys as text, and the topic matching of AMQP 0-9-1, section 3.1.3.3:
    a key is a list of words separated by dots, `*` matches exactly one word
    and `#` matches zero or more words. */
module Topics {

  predicate Dotless(s: string) {
    '.' !in s
  }

  /** The words of a routing key or of a binding pattern. */
  function Words(s: string): (words: seq<string>)
    ensures |words| >= 1
  {
    if s == "" then [""]
    else
      var rest := Words(s[1..]);
      if s[0] == '.' then [""] + rest else [[s[0]] + rest[0]] + rest[1..]
  }

  /** The text a list of words is the splitting of. */
  function Dotted(words: seq<string>): (s: string)
    requires |words| >= 1
  {
    if |words| == 1 then words[0] else words[0] + "." + Dotted(words[1..])
  }

  predicate Matches(pattern: seq<string>, key: seq<string>)
    decreases |pattern| + |key|
  {
    if pattern == [] then key == []
    else if pattern[0] == "#" then
      Matches(pattern[1..], key) || (key != [] && Matches(pattern, key[1..]))
    else
      key != [] && (pattern[0] == "*" || pattern[0] == key[0]) && Matches(pattern[1..], key[1..])
  }

  predicate TopicMatches(pattern: string, key: string) {
    Matches(Words(pattern), Words(key))
  }

  // ---------- splitting ----------

  lemma {:induction false} WordsPrefix(a: string, b: string)
    requires Dotless(a)
    ensures Words(a + b) == [a + Words(b)[0]] + Words(b)[1..]
  {
    if a == "" {
      assert a + b == b;
      assert a + Words(b)[0] == Words(b)[0];
    } else {
      assert (a + b)[1..] == a[1..] + b;
      WordsPrefix(a[1..], b);
      assert [a[0]] + (a[1..] + Words(b)[0]) == a + Words(b)[0];
    }
  }

  lemma WordsOne(a: string)
    requires Dotless(a)
    ensures Words(a) == [a]
  {
    WordsPrefix(a, "");
    assert a + "" == a;
  }

  lemma WordsMore(a: string, b: string)
    requires Dotless(a)
    ensures Words(a + "." + b) == [a] + Words(b)
  {
    WordsPrefix(a, "." + b);
    assert a + "." + b == a + ("." + b);
    assert ("." + b)[1..] == b;
    assert a + "" == a;
  }

  /** Splitting undoes joining when the words hold no dot, and joining always undoes splitting. */
  lemma {:induction false} WordsOfDotted(words: seq<string>)
    requires |words| >= 1
    requires forall w :: w in words ==> Dotless(w)
    ensures Words(Dotted(words)) == words
  {
    if |words| == 1 {
      WordsOne(words[0]);
    } else {
      WordsOfDotted(words[1..]);
      WordsMore(words[0], Dotted(words[1..]));
    }
  }

  lemma {:induction false} DottedOfWords(s: string)
    ensures Dotted(Words(s)) == s
    ensures forall w :: w in Words(s) ==> Dotless(w)
  {
    if s != "" {
      DottedOfWords(s[1..]);
      var rest := Words(s[1..]);
      if s[0] == '.' {
        assert ([""] + rest)[1..] == rest;
        assert "" + "." + Dotted(rest) == s;
      } else {
        var words := [[s[0]] + rest[0]] + rest[1..];
        if |rest| > 1 {
          assert words[1..] == rest[1..];
          assert [s[0]] + rest[0] + "." + Dotted(rest[1..]) == [s[0]] + (rest[0] + "." + Dotted(rest[1..]));
        }
        forall w | w in words ensures Dotless(w) {
          if w != words[0] { assert w in rest; } else { assert Dotless(rest[0]); }
        }
      }
    }
  }

  /** Every dot of the text is a word boundary. */
  lemma {:induction false} WordsCount(s: string)
    ensures |Words(s)| == 1 <==> Dotless(s)
  {
    if s != "" {
      WordsCount(s[1..]);
    }
  }

  lemma {:induction false} WordsOfDottedTail(words: seq<string>, tail: string)
    requires forall w :: w in words ==> Dotless(w)
    ensures Words(Dotted(words + [tail])) == words + Words(tail)
  {
    if words == [] {
    } else {
      WordsOfDottedTail(words[1..], tail);
      assert (words + [tail])[1..] == words[1..] + [tail];
      WordsMore(words[0], Dotted(words[1..] + [tail]));
      assert [words[0]] + (words[1..] + Words(tail)) == words + Words(tail);
    }
  }

  // ---------- what a pattern accepts ----------

  predicate Fits(word: string, w: string) {
    word == "*" || word == w
  }

  /** A pattern without `#` accepts exactly the keys of its own length whose words fit. */
  lemma {:induction false} MatchesFixed(pattern: seq<string>, key: seq<string>)
    requires "#" !in pattern
    ensures Matches(pattern, key) <==>
      |key| == |pattern| && forall k :: 0 <= k < |pattern| ==> Fits(pattern[k], key[k])
  {
    if pattern != [] && key != [] {
      MatchesFixed(pattern[1..], key[1..]);
      if |key| == |pattern| && Matches(pattern, key) {
        forall k | 0 <= k < |pattern| ensures Fits(pattern[k], key[k]) {
          if k > 0 { assert Fits(pattern[1..][k - 1], key[1..][k - 1]); }
        }
      }
    }
  }

  lemma {:induction false} HashAcceptsAll(key: seq<string>)
    ensures Matches(["#"], key)
  {
    if key != [] { HashAcceptsAll(key[1..]); }
  }

  /** A pattern that ends in its only `#` accepts exactly the keys its front is a fitting prefix of. */
  lemma {:induction false} MatchesTail(front: seq<string>, key: seq<string>)
    requires "#" !in front
    ensures Matches(front + ["#"], key) <==>
      |key| >= |front| && forall k :: 0 <= k < |front| ==> Fits(front[k], key[k])
  {
    if front == [] {
      assert front + ["#"] == ["#"];
      HashAcceptsAll(key);
    } else if key != [] {
      assert (front + ["#"])[1..] == front[1..] + ["#"];
      MatchesTail(front[1..], key[1..]);
      if |key| >= |front| && Matches(front + ["#"], key) {
        forall k | 0 <= k < |front| ensures Fits(front[k], key[k]) {
          if k > 0 { assert Fits(front[1..][k - 1], key[1..][k - 1]); }
        }
      }
    }
  }
}
