/**
 * The word tally that several components build in a plain JavaScript object
 * (`wordCount[word] = (wordCount[word] || 0) + 1`), read back with `Object.entries`,
 * sorted by count and cut to the first n entries.
 *
 * The object is modelled as its insertion-ordered key list plus a map from key to count.
 */
module WordCount {
  import opened Sorting
  import opened Text
  import Seqs

  /**
   * The words that pass the component's length guard `long` (its `word.length > n`, see
   * `LongerThan`), in order.
   */
  function Eligible(words: seq<string>, long: string -> bool): (r: seq<string>)
    ensures |r| <= |words|
  {
    if words == [] then []
    else
      var last := words[|words| - 1];
      var init := words[..|words| - 1];
      assert words == init + [last];
      Eligible(init, long) + (if long(last) then [last] else [])
  }

  /** `word.length > n`, with the JavaScript length in UTF-16 code units. */
  predicate LongerThan(w: string, n: nat) {
    JsLength(w) > n
  }

  /** Exactly the words that pass the guard are kept. */
  lemma {:induction false} EligibleMembers(words: seq<string>, long: string -> bool)
    ensures forall w :: w in Eligible(words, long) <==> w in words && long(w)
  {
    if words != [] {
      var init := words[..|words| - 1];
      assert words == init + [words[|words| - 1]];
      EligibleMembers(init, long);
    }
  }

  /** A word that passes the guard is counted as often as it occurs, any other word never. */
  lemma {:induction false} EligibleCount(words: seq<string>, long: string -> bool, w: string)
    ensures multiset(Eligible(words, long))[w] == if long(w) then multiset(words)[w] else 0
  {
    if words != [] {
      var init := words[..|words| - 1];
      assert words == init + [words[|words| - 1]];
      EligibleCount(init, long, w);
    }
  }

  lemma EligibleAppend(words: seq<string>, w: string, long: string -> bool)
    ensures Eligible(words + [w], long)
         == Eligible(words, long) + (if long(w) then [w] else [])
  {
    assert (words + [w])[..|words|] == words;
  }

  predicate NoDuplicates<T(==)>(s: seq<T>) {
    forall i, j :: 0 <= i < j < |s| ==> s[i] != s[j]
  }

  /** The distinct words in order of first occurrence: the order of an object's string keys. */
  function Distinct(words: seq<string>): (r: seq<string>)
    ensures forall w :: w in r <==> w in words
    ensures NoDuplicates(r)
    ensures |r| <= |words|
  {
    if words == [] then []
    else
      var last := words[|words| - 1];
      var init := words[..|words| - 1];
      assert words == init + [last];
      var d := Distinct(init);
      if last in d then d else d + [last]
  }

  /** As many distinct words as words exactly when no word repeats. */
  lemma {:induction false} DistinctFull(words: seq<string>)
    ensures |Distinct(words)| == |words| <==> NoDuplicates(words)
  {
    if words != [] {
      var last := words[|words| - 1];
      var init := words[..|words| - 1];
      assert words == init + [last];
      DistinctFull(init);
      if last in init {
        var k :| 0 <= k < |init| && init[k] == last;
        assert words[k] == words[|words| - 1];
      } else {
        assert NoDuplicates(words) <==> NoDuplicates(init) by {
          if NoDuplicates(init) {
            forall i, j | 0 <= i < j < |words| ensures words[i] != words[j] {
              if j < |init| {
                assert words[i] == init[i] && words[j] == init[j];
              } else {
                assert words[i] == init[i];
              }
            }
          }
          if NoDuplicates(words) {
            forall i, j | 0 <= i < j < |init| ensures init[i] != init[j] {
              assert words[i] == init[i] && words[j] == init[j];
            }
          }
        }
      }
    }
  }

  /** A word not seen before becomes the last distinct word. */
  lemma DistinctNew(words: seq<string>, w: string)
    requires w !in words
    ensures Distinct(words + [w]) == Distinct(words) + [w]
  {
    assert (words + [w])[..|words|] == words;
    assert w !in Distinct(words);
  }

  /** A word seen before leaves the distinct words unchanged. */
  lemma DistinctOld(words: seq<string>, w: string)
    requires w in words
    ensures Distinct(words + [w]) == Distinct(words)
  {
    assert (words + [w])[..|words|] == words;
    assert w in Distinct(words);
  }

  /**
   * `keys` and `counts` are the object built from the words `seen` so far: the keys in
   * order of first occurrence, each mapped to its number of occurrences.
   */
  ghost predicate Tallies(keys: seq<string>, counts: map<string, nat>, seen: seq<string>) {
    && keys == Distinct(seen)
    && (forall w :: w in counts <==> w in seen)
    && (forall w :: w in counts ==> counts[w] == multiset(seen)[w])
  }

  /**
   * The inner `forEach` of every counting component: adds the words that pass the guard
   * to the tally, creating a key at its first occurrence.
   */
  method AddWords(keys: seq<string>, counts: map<string, nat>, words: seq<string>,
                  long: string -> bool, ghost seen: seq<string>)
    returns (keys': seq<string>, counts': map<string, nat>)
    requires Tallies(keys, counts, seen)
    ensures Tallies(keys', counts', seen + Eligible(words, long))
  {
    keys', counts' := keys, counts;
    ghost var cur := seen;
    assert words[..0] == [];
    for i := 0 to |words|
      invariant cur == seen + Eligible(words[..i], long)
      invariant Tallies(keys', counts', cur)
    {
      var w := words[i];
      CountedStep(seen, words, i, long);
      if long(w) {
        keys', counts' := CountWord(keys', counts', w, cur);
        cur := cur + [w];
      }
    }
    assert words[..|words|] == words;
  }

  /** What `AddWords` has counted after one more word. */
  lemma CountedStep(seen: seq<string>, words: seq<string>, i: nat, long: string -> bool)
    requires i < |words|
    ensures seen + Eligible(words[..i + 1], long)
         == (seen + Eligible(words[..i], long)) + (if long(words[i]) then [words[i]] else [])
  {
    EligibleStep(words, i, long);
    AppendAssoc(seen, Eligible(words[..i], long), if long(words[i]) then [words[i]] else []);
  }

  /** `wordCount[word] = (wordCount[word] || 0) + 1`: a new word becomes the last key. */
  method CountWord(keys: seq<string>, counts: map<string, nat>, w: string, ghost seen: seq<string>)
    returns (keys': seq<string>, counts': map<string, nat>)
    requires Tallies(keys, counts, seen)
    ensures Tallies(keys', counts', seen + [w])
  {
    if w in counts {
      TallyExisting(keys, counts, seen, w);
      keys', counts' := keys, counts[w := counts[w] + 1];
    } else {
      TallyNew(keys, counts, seen, w);
      keys', counts' := keys + [w], counts[w := 1];
    }
  }

  lemma AppendAssoc<T>(a: seq<T>, b: seq<T>, c: seq<T>)
    ensures a + (b + c) == (a + b) + c
  {
  }

  /** The words counted after one more step of the loop. */
  lemma EligibleStep(words: seq<string>, i: nat, long: string -> bool)
    requires i < |words|
    ensures Eligible(words[..i + 1], long)
         == Eligible(words[..i], long) + (if long(words[i]) then [words[i]] else [])
  {
    assert words[..i + 1] == words[..i] + [words[i]];
    EligibleAppend(words[..i], words[i], long);
  }

  /** Counting a word already seen adds one to its count and keeps the keys. */
  lemma TallyExisting(keys: seq<string>, counts: map<string, nat>, seen: seq<string>, w: string)
    requires Tallies(keys, counts, seen) && w in counts
    ensures Tallies(keys, counts[w := counts[w] + 1], seen + [w])
  {
    assert w in seen;
    DistinctOld(seen, w);
    AppendCounts(seen, w);
    TallyCounts(counts, seen, w, counts[w := counts[w] + 1]);
  }

  /** Counting a new word makes it the last key, with count one. */
  lemma TallyNew(keys: seq<string>, counts: map<string, nat>, seen: seq<string>, w: string)
    requires Tallies(keys, counts, seen) && w !in counts
    ensures Tallies(keys + [w], counts[w := 1], seen + [w])
  {
    assert w !in seen;
    DistinctNew(seen, w);
    AppendCounts(seen, w);
    TallyCounts(counts, seen, w, counts[w := 1]);
  }

  /** The counts after one more occurrence of `w`. */
  lemma TallyCounts(counts: map<string, nat>, seen: seq<string>, w: string, counts': map<string, nat>)
    requires forall x :: x in counts <==> x in seen
    requires forall x :: x in counts ==> counts[x] == multiset(seen)[x]
    requires counts' == counts[w := if w in counts then counts[w] + 1 else 1]
    requires forall x :: x in seen + [w] <==> x in seen || x == w
    requires forall x :: multiset(seen + [w])[x] == multiset(seen)[x] + (if x == w then 1 else 0)
    ensures forall x :: x in counts' <==> x in seen + [w]
    ensures forall x :: x in counts' ==> counts'[x] == multiset(seen + [w])[x]
  {
  }

  /** Appending `x` adds it to the members and to the count of `x` only. */
  lemma AppendCounts<T>(s: seq<T>, x: T)
    ensures forall y :: y in s + [x] <==> y in s || y == x
    ensures forall y :: multiset(s + [x])[y] == multiset(s)[y] + (if y == x then 1 else 0)
  {
    assert multiset(s + [x]) == multiset(s) + multiset{x};
  }

  /** `Object.entries(wordCount)`: (word, count) pairs in key order. */
  function Entries(seen: seq<string>): (r: seq<(string, nat)>)
    ensures |r| == |Distinct(seen)|
    ensures forall i :: 0 <= i < |r| ==> r[i].0 == Distinct(seen)[i] && r[i].1 == multiset(seen)[r[i].0]
  {
    var keys := Distinct(seen);
    seq(|keys|, i requires 0 <= i < |keys| => (keys[i], multiset(seen)[keys[i]]))
  }

  /** The tally's own `Object.entries`: every key in insertion order with its count. */
  function TallyEntries(keys: seq<string>, counts: map<string, nat>): (r: seq<(string, nat)>)
    requires forall k :: k in keys ==> k in counts
    ensures |r| == |keys|
  {
    seq(|keys|, i requires 0 <= i < |keys| => (keys[i], counts[keys[i]]))
  }

  /** A tally's entries are the entries of the words it has seen. */
  lemma TalliedEntries(keys: seq<string>, counts: map<string, nat>, seen: seq<string>)
    requires Tallies(keys, counts, seen)
    ensures forall k :: k in keys ==> k in counts
    ensures TallyEntries(keys, counts) == Entries(seen)
  {
  }

  /** Every word seen has exactly one entry, whose count is its number of occurrences. */
  lemma EntriesComplete(seen: seq<string>, w: string)
    requires w in seen
    ensures exists i :: 0 <= i < |Entries(seen)| && Entries(seen)[i] == (w, multiset(seen)[w])
    ensures forall i, j :: 0 <= i < j < |Entries(seen)| ==> Entries(seen)[i].0 != Entries(seen)[j].0
    ensures forall i :: 0 <= i < |Entries(seen)| ==> Entries(seen)[i].1 >= 1
  {
    var keys := Distinct(seen);
    assert w in keys;
    var i :| 0 <= i < |keys| && keys[i] == w;
    assert Entries(seen)[i] == (w, multiset(seen)[w]);
    forall k | 0 <= k < |Entries(seen)| ensures Entries(seen)[k].1 >= 1 {
      assert keys[k] in seen;
    }
  }

  /** The comparator `(a, b) => b[1] - a[1]`: larger counts first. */
  function ByCountDesc(a: (string, nat), b: (string, nat)): bool {
    a.1 >= b.1
  }

  lemma ByCountDescIsPreorder()
    ensures IsTotalPreorder(ByCountDesc)
  {
  }

  /** `.sort((a, b) => b[1] - a[1]).slice(0, n)`. */
  function TopByCount(entries: seq<(string, nat)>, n: nat): seq<(string, nat)> {
    Take(SortBy(entries, ByCountDesc), n)
  }

  /**
   * The first n entries by count: at most n of them, drawn from `entries`, in
   * non-increasing count order, and no entry left out has a larger count than one kept.
   */
  lemma TopByCountProperties(entries: seq<(string, nat)>, n: nat)
    ensures |TopByCount(entries, n)| <= n
    ensures forall e :: e in TopByCount(entries, n) ==> e in entries
    ensures forall i, j :: 0 <= i < j < |TopByCount(entries, n)| ==>
              TopByCount(entries, n)[i].1 >= TopByCount(entries, n)[j].1
    ensures forall e, x :: e in entries && e !in TopByCount(entries, n) && x in TopByCount(entries, n) ==> x.1 >= e.1
  {
    var s := SortBy(entries, ByCountDesc);
    var r := TopByCount(entries, n);
    ByCountDescIsPreorder();
    SortBySorted(entries, ByCountDesc);
    forall e | e in r ensures e in entries {
      assert e in multiset(s);
    }
    forall e, x | e in entries && e !in r && x in r ensures x.1 >= e.1 {
      assert e in multiset(s);
      var k :| 0 <= k < |s| && s[k] == e;
      var i :| 0 <= i < |r| && r[i] == x;
      assert s[i] == x;
      assert k >= |r| by {
        assert forall m :: 0 <= m < |r| ==> r[m] == s[m];
      }
    }
  }

  /**
   * Ties are decided by table order: of the entries whose count equals `e`'s, the ones kept
   * are the first ones in `entries`, as the stable sort leaves them.
   */
  lemma TopByCountTies(entries: seq<(string, nat)>, n: nat, e: (string, nat))
    ensures Equivalents(TopByCount(entries, n), e, ByCountDesc) <= Equivalents(entries, e, ByCountDesc)
  {
    var s := SortBy(entries, ByCountDesc);
    ByCountDescIsPreorder();
    SortByStable(entries, e, ByCountDesc);
    EquivalentsPrefix(Take(s, n), s, e, ByCountDesc);
  }

  /** Keeping the first n of a sorted table never lets a word appear twice. */
  lemma {:induction false} TopByCountDistinct(entries: seq<(string, nat)>, n: nat)
    requires forall i, j :: 0 <= i < j < |entries| ==> entries[i].0 != entries[j].0
    ensures forall i, j :: 0 <= i < j < |TopByCount(entries, n)| ==>
              TopByCount(entries, n)[i].0 != TopByCount(entries, n)[j].0
  {
    var s := SortBy(entries, ByCountDesc);
    var r := TopByCount(entries, n);
    forall i, j | 0 <= i < j < |r| ensures r[i].0 != r[j].0 {
      if r[i].0 == r[j].0 {
        assert r[i] == s[i] && r[j] == s[j];
        assert s[i] in multiset(entries) && s[j] in multiset(entries);
        var a :| 0 <= a < |entries| && entries[a] == s[i];
        var b :| 0 <= b < |entries| && entries[b] == s[j];
        assert a == b;
        assert s[i] == s[j];
        MultisetCountsTwo(s, i, j);
        assert multiset(entries)[s[i]] >= 2;
        DistinctCountsOne(entries, a);
      }
    }
  }

  lemma MultisetCountsTwo<T>(s: seq<T>, i: nat, j: nat)
    requires 0 <= i < j < |s| && s[i] == s[j]
    ensures multiset(s)[s[i]] >= 2
  {
    assert s == s[..i] + [s[i]] + s[i + 1..j] + [s[j]] + s[j + 1..];
  }

  lemma DistinctCountsOne(entries: seq<(string, nat)>, a: nat)
    requires a < |entries|
    requires forall i, j :: 0 <= i < j < |entries| ==> entries[i].0 != entries[j].0
    ensures multiset(entries)[entries[a]] == 1
  {
    assert entries == entries[..a] + [entries[a]] + entries[a + 1..];
    assert entries[a] !in entries[..a];
    assert entries[a] !in entries[a + 1..];
  }

  /** The `stopword` package's `removeStopwords(words, list)`: the words not in the list, in order. */
  function RemoveStopwords(words: seq<string>, stopwords: set<string>): (r: seq<string>)
    ensures forall w :: multiset(r)[w] == if w in stopwords then 0 else multiset(words)[w]
  {
    if words == [] then []
    else
      var last := words[|words| - 1];
      var init := words[..|words| - 1];
      assert words == init + [last];
      RemoveStopwords(init, stopwords) + (if last in stopwords then [] else [last])
  }

  /** A word that survives stop-word removal was among the words. */
  lemma RemovedFrom(words: seq<string>, stopwords: set<string>, w: string)
    requires w in RemoveStopwords(words, stopwords)
    ensures w in words && w !in stopwords
  {
    assert multiset(RemoveStopwords(words, stopwords))[w] > 0;
  }

  /** The words of the first n items that pass the guard, item after item. */
  function Collected<T>(items: seq<T>, words: T -> seq<string>, long: string -> bool, n: nat): seq<string>
    requires n <= |items|
  {
    if n == 0 then [] else Collected(items, words, long, n - 1) + Eligible(words(items[n - 1]), long)
  }

  /**
   * The nested `forEach` of the counting components: the words of each item, in turn,
   * go into one tally.
   */
  method TallyItems<T>(items: seq<T>, words: T -> seq<string>, long: string -> bool)
    returns (keys: seq<string>, counts: map<string, nat>)
    ensures Tallies(keys, counts, Collected(items, words, long, |items|))
  {
    keys, counts := [], map[];
    for i := 0 to |items|
      invariant Tallies(keys, counts, Collected(items, words, long, i))
    {
      keys, counts := AddWords(keys, counts, words(items[i]), long, Collected(items, words, long, i));
    }
  }

  /** Every word collected passes the guard and is made of characters its item's words are made of. */
  lemma {:induction false} CollectedWords<T>(items: seq<T>, words: T -> seq<string>, long: string -> bool, n: nat,
                                             ok: char -> bool)
    requires n <= |items|
    requires forall i, w, k :: 0 <= i < n && w in words(items[i]) && 0 <= k < |w| ==> ok(w[k])
    ensures forall w :: w in Collected(items, words, long, n) ==> long(w)
    ensures forall w, k :: w in Collected(items, words, long, n) && 0 <= k < |w| ==> ok(w[k])
  {
    if n > 0 {
      CollectedWords(items, words, long, n - 1, ok);
      EligibleMembers(words(items[n - 1]), long);
    }
  }

  /** The collected words depend only on the items counted. */
  lemma {:induction false} CollectedPrefix<T>(a: seq<T>, b: seq<T>, words: T -> seq<string>, long: string -> bool, m: nat)
    requires m <= |a| && m <= |b| && a[..m] == b[..m]
    ensures Collected(a, words, long, m) == Collected(b, words, long, m)
  {
    if m > 0 {
      assert a[m - 1] == a[..m][m - 1] == b[..m][m - 1] == b[m - 1];
      assert a[..m - 1] == a[..m][..m - 1];
      assert b[..m - 1] == b[..m][..m - 1];
      CollectedPrefix(a, b, words, long, m - 1);
    }
  }

  /** Items that yield no words can be dropped without changing what is collected. */
  lemma {:induction false} CollectedSkips<T>(items: seq<T>, words: T -> seq<string>, long: string -> bool,
                                             keep: T -> bool, same: T -> T, n: nat)
    requires n <= |items|
    requires forall x :: same(x) == x
    requires forall i :: 0 <= i < n && !keep(items[i]) ==> words(items[i]) == []
    ensures Collected(items, words, long, n) ==
            Collected(Seqs.KeepIf(items, keep, same, n), words, long, |Seqs.KeepIf(items, keep, same, n)|)
  {
    if n > 0 {
      CollectedSkips(items, words, long, keep, same, n - 1);
      var x := items[n - 1];
      var prev := Seqs.KeepIf(items, keep, same, n - 1);
      assert Collected(items, words, long, n)
          == Collected(items, words, long, n - 1) + Eligible(words(x), long);
      if keep(x) {
        assert Seqs.KeepIf(items, keep, same, n) == prev + [x] by {
          assert same(x) == x;
        }
        CollectedAppend(prev, x, words, long);
      } else {
        assert Seqs.KeepIf(items, keep, same, n) == prev;
        assert Eligible(words(x), long) == [];
      }
    }
  }

  /** Counting one more item appends its words. */
  lemma CollectedAppend<T>(prev: seq<T>, x: T, words: T -> seq<string>, long: string -> bool)
    ensures Collected(prev + [x], words, long, |prev| + 1)
         == Collected(prev, words, long, |prev|) + Eligible(words(x), long)
  {
    var cur := prev + [x];
    assert cur[..|prev|] == prev[..|prev|];
    CollectedPrefix(cur, prev, words, long, |prev|);
  }

  /** The words kept by a top-n table. */
  function TableWords(top: seq<(string, nat)>): set<string> {
    set i | 0 <= i < |top| :: top[i].0
  }

  /**
   * `Object.entries(tally).sort(byCountDesc).slice(0, n)` over the words `seen`: at most n
   * distinct words (fewer only when fewer were seen), each with its exact number of
   * occurrences, largest counts first, and no word left out occurs more often than a word kept;
   * among words of equal count, those seen first are kept first.
   */
  lemma TopEntries(seen: seq<string>, n: nat, top: seq<(string, nat)>)
    requires top == TopByCount(Entries(seen), n)
    ensures |top| == if n < |Distinct(seen)| then n else |Distinct(seen)|
    ensures forall i :: 0 <= i < |top| ==> top[i].0 in seen && top[i].1 == multiset(seen)[top[i].0] >= 1
    ensures forall i, j :: 0 <= i < j < |top| ==> top[i].1 >= top[j].1 && top[i].0 != top[j].0
    ensures forall w, i :: w in seen && w !in TableWords(top) && 0 <= i < |top| ==> multiset(seen)[w] <= top[i].1
    ensures forall e :: Equivalents(top, e, ByCountDesc) <= Equivalents(Entries(seen), e, ByCountDesc)
  {
    var entries := Entries(seen);
    forall e ensures Equivalents(top, e, ByCountDesc) <= Equivalents(entries, e, ByCountDesc) {
      TopByCountTies(entries, n, e);
    }
    TopByCountProperties(entries, n);
    TopByCountDistinct(entries, n);
    forall i | 0 <= i < |top| ensures top[i].0 in seen && top[i].1 == multiset(seen)[top[i].0] >= 1 {
      assert top[i] in top;
      var k :| 0 <= k < |entries| && entries[k] == top[i];
      assert Distinct(seen)[k] in Distinct(seen);
    }
    forall w, i | w in seen && w !in TableWords(top) && 0 <= i < |top| ensures multiset(seen)[w] <= top[i].1 {
      EntriesComplete(seen, w);
      var k :| 0 <= k < |entries| && entries[k] == (w, multiset(seen)[w]);
      assert top[i] in top;
    }
  }
}
