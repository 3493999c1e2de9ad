/** The word-frequency function of the statistics toolbox
    (StatisticsToolboxImpl.CalculateWordsCounts): split a text into words,
    count each word, and list the words by count descending, then by word
    ascending. */
module WordStatistics {

  /** The separators handed to String.Split. */
  predicate IsDelimiter(c: char)
  {
    c == '.' || c == '?' || c == '!' || c == ' ' || c == ';' || c == ':' || c == ',' || c == '(' || c == ')'
  }

  predicate NoDelimiter(w: string)
  {
    forall k :: 0 <= k < |w| ==> !IsDelimiter(w[k])
  }

  /** String.Split without options: the pieces between separators, empty
      ones included, one more piece than there are separators. */
  function Pieces(text: string): (ps: seq<string>)
    ensures |ps| >= 1
    ensures forall i :: 0 <= i < |ps| ==> NoDelimiter(ps[i])
    decreases |text|
  {
    if |text| == 0 then [""]
    else
      var rest := Pieces(text[1..]);
      if IsDelimiter(text[0]) then [""] + rest else [[text[0]] + rest[0]] + rest[1..]
  }

  /** StringSplitOptions.RemoveEmptyEntries. */
  function NonEmpty(ps: seq<string>): (r: seq<string>)
    ensures forall i :: 0 <= i < |r| ==> r[i] != "" && r[i] in ps
    ensures forall p :: p in ps && p != "" ==> p in r
  {
    if |ps| == 0 then []
    else if ps[0] == "" then NonEmpty(ps[1..])
    else [ps[0]] + NonEmpty(ps[1..])
  }

  /** The words of a text: its maximal non-empty runs of non-delimiters. */
  function Words(text: string): (ws: seq<string>)
    ensures forall i :: 0 <= i < |ws| ==> ws[i] != "" && NoDelimiter(ws[i])
  {
    NonEmpty(Pieces(text))
  }

  lemma NonEmptyAppend(x: seq<string>, y: seq<string>)
    ensures NonEmpty(x + y) == NonEmpty(x) + NonEmpty(y)
  {
    if |x| > 0 {
      assert (x + y)[1..] == x[1..] + y;
      NonEmptyAppend(x[1..], y);
    } else {
      assert x + y == y;
    }
  }

  lemma {:induction false} PiecesSplit(a: string, d: char, b: string)
    requires IsDelimiter(d)
    ensures Pieces(a + [d] + b) == Pieces(a) + Pieces(b)
    decreases |a|
  {
    if |a| == 0 {
      assert a + [d] + b == [d] + b;
      assert ([d] + b)[1..] == b;
    } else {
      var t := a + [d] + b;
      assert t[0] == a[0];
      assert t[1..] == a[1..] + [d] + b;
      PiecesSplit(a[1..], d, b);
    }
  }

  lemma {:induction false} PiecesOfRun(w: string)
    requires NoDelimiter(w)
    ensures Pieces(w) == [w]
    decreases |w|
  {
    if |w| > 0 {
      PiecesOfRun(w[1..]);
      assert [w[0]] + w[1..] == w;
    }
  }

  lemma {:induction false} PiecesOfDelimiters(t: string)
    requires forall k :: 0 <= k < |t| ==> IsDelimiter(t[k])
    ensures forall i :: 0 <= i < |Pieces(t)| ==> Pieces(t)[i] == ""
    decreases |t|
  {
    if |t| > 0 {
      PiecesOfDelimiters(t[1..]);
    }
  }

  /** A delimiter separates words: the words of `a`, then those of `b`. */
  lemma WordsSplitAtDelimiter(a: string, d: char, b: string)
    requires IsDelimiter(d)
    ensures Words(a + [d] + b) == Words(a) + Words(b)
  {
    PiecesSplit(a, d, b);
    NonEmptyAppend(Pieces(a), Pieces(b));
  }

  /** A non-empty run without delimiters is a single word. */
  lemma WordsOfRun(w: string)
    requires w != "" && NoDelimiter(w)
    ensures Words(w) == [w]
  {
    PiecesOfRun(w);
    assert NonEmpty([w]) == [w] + NonEmpty([]);
  }

  /** Empty text, or text of delimiters only, has no words. */
  lemma WordsOfDelimiters(t: string)
    requires forall k :: 0 <= k < |t| ==> IsDelimiter(t[k])
    ensures Words(t) == []
  {
    PiecesOfDelimiters(t);
    NonEmptyOfBlanks(Pieces(t));
  }

  lemma {:induction false} NonEmptyOfBlanks(ps: seq<string>)
    requires forall i :: 0 <= i < |ps| ==> ps[i] == ""
    ensures NonEmpty(ps) == []
  {
    if |ps| > 0 {
      NonEmptyOfBlanks(ps[1..]);
    }
  }

  /** The number of occurrences of `w` in `ws`. */
  function Count(ws: seq<string>, w: string): nat
  {
    if |ws| == 0 then 0 else Count(ws[..|ws| - 1], w) + (if ws[|ws| - 1] == w then 1 else 0)
  }

  /** `ws` with every occurrence of `w` removed. */
  function Without(ws: seq<string>, w: string): (r: seq<string>)
    ensures |r| + Count(ws, w) == |ws|
    ensures forall v :: v != w ==> Count(r, v) == Count(ws, v)
    ensures forall v :: v in r <==> v in ws && v != w
  {
    if |ws| == 0 then []
    else
      var init := Without(ws[..|ws| - 1], w);
      var last := ws[|ws| - 1];
      assert forall v :: v in ws <==> v in ws[..|ws| - 1] || v == last;
      if last == w then init
      else
        assert (init + [last])[..|init|] == init;
        init + [last]
  }

  /** WordCount: a word and its number of occurrences. */
  datatype WordCount = WordCount(word: string, count: nat)

  /** Ordinal string order: lexicographic on characters, a prefix first. */
  predicate WordLe(a: string, b: string)
    decreases |a|
  {
    |a| == 0 || (|b| > 0 && (a[0] < b[0] || (a[0] == b[0] && WordLe(a[1..], b[1..]))))
  }

  lemma {:induction false} WordLeTotal(a: string, b: string)
    ensures WordLe(a, b) || WordLe(b, a)
    decreases |a|
  {
    if |a| > 0 && |b| > 0 && a[0] == b[0] {
      WordLeTotal(a[1..], b[1..]);
    }
  }

  lemma {:induction false} WordLeTransitive(a: string, b: string, c: string)
    requires WordLe(a, b) && WordLe(b, c)
    ensures WordLe(a, c)
    decreases |a|
  {
    if |a| > 0 && a[0] == b[0] && b[0] == c[0] {
      WordLeTransitive(a[1..], b[1..], c[1..]);
    }
  }

  /** orderby Value descending, Key ascending. */
  predicate Precedes(x: WordCount, y: WordCount)
  {
    x.count > y.count || (x.count == y.count && WordLe(x.word, y.word))
  }

  predicate Ranked(s: seq<WordCount>)
  {
    forall i, j :: 0 <= i < j < |s| ==> Precedes(s[i], s[j])
  }

  lemma PrecedesTransitive(x: WordCount, y: WordCount, z: WordCount)
    requires Precedes(x, y) && Precedes(y, z)
    ensures Precedes(x, z)
  {
    if x.count == y.count == z.count {
      WordLeTransitive(x.word, y.word, z.word);
    }
  }

  /** One step of the sort: `x` placed before the first entry it
      precedes. */
  function Insert(x: WordCount, s: seq<WordCount>): (r: seq<WordCount>)
    ensures |r| == |s| + 1 && multiset(r) == multiset(s) + multiset{x}
  {
    if |s| == 0 then [x]
    else if Precedes(x, s[0]) then [x] + s
    else
      assert s == [s[0]] + s[1..];
      [s[0]] + Insert(x, s[1..])
  }

  /** The LINQ orderby, as an insertion sort: a permutation of its input. */
  function Rank(s: seq<WordCount>): (r: seq<WordCount>)
    ensures |r| == |s| && multiset(r) == multiset(s)
  {
    if |s| == 0 then []
    else
      assert s == [s[0]] + s[1..];
      Insert(s[0], Rank(s[1..]))
  }

  lemma InsertMembers(x: WordCount, s: seq<WordCount>)
    ensures forall e :: e in Insert(x, s) <==> e == x || e in s
  {
    var r := Insert(x, s);
    assert forall e :: e in r <==> e in multiset(r);
  }

  lemma {:induction false} InsertRanked(x: WordCount, s: seq<WordCount>)
    requires Ranked(s)
    ensures Ranked(Insert(x, s))
    decreases |s|
  {
    if |s| == 0 {
    } else if Precedes(x, s[0]) {
      forall j | 1 <= j < |s| ensures Precedes(x, s[j]) {
        PrecedesTransitive(x, s[0], s[j]);
      }
    } else {
      var rest := Insert(x, s[1..]);
      InsertRanked(x, s[1..]);
      InsertMembers(x, s[1..]);
      WordLeTotal(x.word, s[0].word);
      forall j | 0 <= j < |rest| ensures Precedes(s[0], rest[j]) {
        assert rest[j] in rest;
      }
    }
  }

  lemma {:induction false} InsertDistinct(x: WordCount, s: seq<WordCount>)
    requires DistinctWords(s) && x.word !in Vocabulary(s)
    ensures DistinctWords(Insert(x, s))
    decreases |s|
  {
    if |s| > 0 && !Precedes(x, s[0]) {
      var rest := Insert(x, s[1..]);
      assert Vocabulary(s) == {s[0].word} + Vocabulary(s[1..]) by {
        assert forall e :: e in s <==> e == s[0] || e in s[1..];
      }
      InsertDistinct(x, s[1..]);
      InsertMembers(x, s[1..]);
      forall j | 0 <= j < |rest| ensures s[0].word != rest[j].word {
        assert rest[j] in rest;
      }
    } else if |s| > 0 {
      forall j | 0 <= j < |s| ensures x.word != s[j].word {
        assert s[j] in s;
      }
    }
  }

  /** The sorted list is ranked and, from distinct words, keeps them
      distinct and keeps every entry. */
  lemma {:induction false} RankOrders(s: seq<WordCount>)
    requires DistinctWords(s)
    ensures Ranked(Rank(s)) && DistinctWords(Rank(s))
    ensures forall e :: e in Rank(s) <==> e in s
    decreases |s|
  {
    if |s| > 0 {
      var rest := Rank(s[1..]);
      RankOrders(s[1..]);
      InsertRanked(s[0], rest);
      InsertMembers(s[0], rest);
      assert forall e :: e in s <==> e == s[0] || e in s[1..];
      forall j | 1 <= j < |s| ensures s[j].word != s[0].word {
      }
      assert s[0].word !in Vocabulary(rest);
      InsertDistinct(s[0], rest);
    }
  }

  /** The words a list of entries covers. */
  function Vocabulary(s: seq<WordCount>): set<string>
  {
    set e | e in s :: e.word
  }

  predicate DistinctWords(s: seq<WordCount>)
  {
    forall i, j :: 0 <= i < j < |s| ==> s[i].word != s[j].word
  }

  /** The foreach over the words: each word's number of occurrences. */
  method Tally(words: seq<string>) returns (table: map<string, nat>)
    ensures forall w :: w in table <==> w in words
    ensures forall w :: w in table ==> table[w] == Count(words, w)
  {
    table := map[];
    var i := 0;
    while i < |words|
      invariant 0 <= i <= |words|
      invariant forall w :: w in table <==> w in words[..i]
      invariant forall w :: w in table ==> table[w] == Count(words[..i], w)
    {
      var word := words[i];
      assert words[..i + 1][..i] == words[..i];
      assert forall w :: w in words[..i + 1] <==> w in words[..i] || w == word;
      if word in table {
        table := table[word := table[word] + 1];
      } else {
        assert Count(words[..i], word) == 0 by { CountAbsent(words[..i], word); }
        table := table[word := 1];
      }
      i := i + 1;
    }
    assert words[..i] == words;
  }

  lemma {:induction false} CountAbsent(ws: seq<string>, w: string)
    requires w !in ws
    ensures Count(ws, w) == 0
    decreases |ws|
  {
    if |ws| > 0 {
      assert forall v :: v in ws[..|ws| - 1] ==> v in ws;
      CountAbsent(ws[..|ws| - 1], w);
    }
  }

  /** `from item in table`: the entries of the dictionary, each once, in
      the order the enumeration yields them. */
  method Entries(table: map<string, nat>) returns (items: seq<WordCount>)
    ensures DistinctWords(items) && Vocabulary(items) == table.Keys
    ensures forall e :: e in items ==> e.word in table && e.count == table[e.word]
  {
    items := [];
    var rest := table.Keys;
    while rest != {}
      invariant rest <= table.Keys
      invariant DistinctWords(items) && Vocabulary(items) == table.Keys - rest
      invariant forall e :: e in items ==> e.word in table && e.count == table[e.word]
      decreases rest
    {
      var w :| w in rest;
      forall i | 0 <= i < |items| ensures items[i].word != w {
        assert items[i] in items;
      }
      var entry := WordCount(w, table[w]);
      assert forall e :: e in items + [entry] <==> e in items || e == entry;
      assert Vocabulary(items + [entry]) == Vocabulary(items) + {w};
      items := items + [entry];
      rest := rest - {w};
    }
  }

  /** CalculateWordsCounts: every word of the text once, with its number
      of occurrences, by count descending and then by word ascending. */
  method CalculateWordsCounts(text: string) returns (result: seq<WordCount>)
    ensures Ranked(result) && DistinctWords(result)
    ensures Vocabulary(result) == set w | w in Words(text)
    ensures forall i :: 0 <= i < |result| ==> result[i].count == Count(Words(text), result[i].word)
  {
    var items := CountAndRank(Words(text));
    result := [];
    var i := 0;
    while i < |items|
      invariant 0 <= i <= |items| && result == items[..i]
    {
      result := result + [WordCount(items[i].word, items[i].count)];
      i := i + 1;
    }
    assert result == items;
  }

  /** The table filled by the foreach, enumerated and put in order. */
  method CountAndRank(words: seq<string>) returns (items: seq<WordCount>)
    ensures Ranked(items) && DistinctWords(items)
    ensures Vocabulary(items) == set w | w in words
    ensures forall i :: 0 <= i < |items| ==> items[i].count == Count(words, items[i].word)
  {
    var table := Tally(words);
    var entries := Entries(table);
    items := Rank(entries);
    RankOrders(entries);
    forall i | 0 <= i < |items| ensures items[i].count == Count(words, items[i].word) {
      assert items[i] in entries;
    }
  }

  function SumCounts(s: seq<WordCount>): nat
  {
    if |s| == 0 then 0 else s[0].count + SumCounts(s[1..])
  }

  /** The counts of a list covering the words of `words` once each with
      their occurrences add up to the number of words. */
  lemma {:induction false} CountsSumToWords(words: seq<string>, s: seq<WordCount>)
    requires DistinctWords(s) && Vocabulary(s) == set w | w in words
    requires forall i :: 0 <= i < |s| ==> s[i].count == Count(words, s[i].word)
    ensures SumCounts(s) == |words|
    decreases |s|
  {
    if |s| == 0 {
      assert Vocabulary(s) == {};
      assert forall i :: 0 <= i < |words| ==> words[i] in Vocabulary(s);
    } else {
      var rest := Without(words, s[0].word);
      var tail := s[1..];
      assert forall e :: e in s <==> e == s[0] || e in tail;
      forall i | 0 <= i < |tail| ensures tail[i].word != s[0].word {
        assert tail[i] == s[i + 1];
      }
      assert Vocabulary(tail) == Vocabulary(s) - {s[0].word} by {
        forall e | e in tail ensures e.word != s[0].word {
          var i :| 0 <= i < |tail| && tail[i] == e;
        }
      }
      assert Vocabulary(tail) == set w | w in rest;
      CountsSumToWords(rest, tail);
      assert SumCounts(tail) == |rest|;
      assert s[0].count == Count(words, s[0].word);
      assert |rest| + Count(words, s[0].word) == |words|;
    }
  }

  /** Empty text, or text of delimiters only, gives an empty list. */
  lemma NoWordsNoEntries(text: string, result: seq<WordCount>)
    requires forall k :: 0 <= k < |text| ==> IsDelimiter(text[k])
    requires Vocabulary(result) == set w | w in Words(text)
    ensures result == []
  {
    WordsOfDelimiters(text);
    assert Vocabulary(result) == {};
    assert |result| > 0 ==> result[0].word in Vocabulary(result);
  }
}
