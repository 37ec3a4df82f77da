// Signal tags: validation of a tag and of a tag list, order-keeping
// de-duplication, the per-tag popularity counter and its top-N query, keyword
// based tag suggestions, and the substring search those suggestions use.

module Categories {
  import opened Base
  import opened RegistryTypes
  import opened Sorting

  const MAX_TAGS: nat := 10
  const MAX_TAG_LENGTH: nat := 20
  const MAX_SUGGESTIONS: nat := 5

  /** Letters, digits, '-' and '_'. */
  predicate TagByte(b: Byte)
  {
    (97 <= b <= 122) || (65 <= b <= 90) || (48 <= b <= 57) || b == 45 || b == 95
  }

  predicate ValidTag(tag: Text)
  {
    1 <= |tag| <= MAX_TAG_LENGTH && forall i :: 0 <= i < |tag| ==> TagByte(tag[i])
  }

  /** The outcome of `validate_tags`: every failure is InvalidParameter. */
  function TagsResult(tags: seq<Text>): Result<(), AdminError>
  {
    if |tags| <= MAX_TAGS && forall i :: 0 <= i < |tags| ==> ValidTag(tags[i]) then Ok(()) else Err(InvalidParameter)
  }

  /** The first occurrence of every tag, in input order. */
  function Dedup(tags: seq<Text>): (r: seq<Text>)
    ensures forall t :: t in r ==> t in tags
    ensures |r| <= |tags|
  {
    if tags == [] then []
    else
      var u := Dedup(tags[..|tags| - 1]);
      if tags[|tags| - 1] in u then u else u + [tags[|tags| - 1]]
  }

  function Popularity(m: map<Text, nat>, tag: Text): nat
  {
    if tag in m then m[tag] else 0
  }

  /** The popularity map after counting `tags` once each, in order. */
  function Bump(m: map<Text, nat>, tags: seq<Text>): map<Text, nat>
  {
    if tags == [] then m
    else
      var m' := Bump(m, tags[..|tags| - 1]);
      m'[tags[|tags| - 1] := Popularity(m', tags[|tags| - 1]) + 1]
  }

  predicate MatchAt(haystack: seq<Byte>, needle: seq<Byte>, i: nat)
  {
    i + |needle| <= |haystack| && haystack[i..i + |needle|] == needle
  }

  /** `needle` occurs contiguously in `haystack`. */
  predicate Occurs(needle: seq<Byte>, haystack: seq<Byte>)
  {
    exists i: nat :: i <= |haystack| && MatchAt(haystack, needle, i)
  }

  /** The keyword table of `auto_suggest_tags`, in its order: three spellings of a
      breakout all suggest "breakout". */
  function Keywords(): (k: seq<(Text, Text)>)
    ensures |k| == 11
  {
    [ (Ascii("breakout"), Ascii("breakout")),
      (Ascii("breaking"), Ascii("breakout")),
      (Ascii("resistance"), Ascii("breakout")),
      (Ascii("bullish"), Ascii("bullish")),
      (Ascii("bearish"), Ascii("bearish")),
      (Ascii("oversold"), Ascii("oversold")),
      (Ascii("overbought"), Ascii("overbought")),
      (Ascii("reversal"), Ascii("reversal")),
      (Ascii("momentum"), Ascii("momentum")),
      (Ascii("high-risk"), Ascii("high-risk")),
      (Ascii("earnings"), Ascii("earnings")) ]
  }

  /** The tags of the first `n` keywords that occur in `text`, in keyword order. */
  function MatchesUpTo(text: Text, n: nat): seq<Text>
    requires n <= |Keywords()|
  {
    if n == 0 then []
    else MatchesUpTo(text, n - 1) + (if Occurs(Keywords()[n - 1].0, text) then [Keywords()[n - 1].1] else [])
  }

  /** Every keyword tag that applies, before the cap of five. */
  function Matches(text: Text): seq<Text>
  {
    MatchesUpTo(text, |Keywords()|)
  }

  // ---------------------------------------------------------------------------
  // Implementation

  /** `validate_tag`. */
  method ValidateTag(tag: Text) returns (r: Result<(), AdminError>)
    ensures r.Ok? <==> ValidTag(tag)
    ensures r.Err? ==> r.error == InvalidParameter
  {
    if |tag| == 0 || |tag| > MAX_TAG_LENGTH {
      return Err(InvalidParameter);
    }
    var i := 0;
    while i < |tag|
      invariant 0 <= i <= |tag|
      invariant forall k :: 0 <= k < i ==> TagByte(tag[k])
    {
      var b := tag[i];
      if !((97 <= b <= 122) || (65 <= b <= 90) || (48 <= b <= 57) || b == 45 || b == 95) {
        return Err(InvalidParameter);
      }
      i := i + 1;
    }
    r := Ok(());
  }

  /** `validate_tags`. */
  method ValidateTags(tags: seq<Text>) returns (r: Result<(), AdminError>)
    ensures r == TagsResult(tags)
  {
    if |tags| > MAX_TAGS {
      return Err(InvalidParameter);
    }
    var i := 0;
    while i < |tags|
      invariant 0 <= i <= |tags|
      invariant forall k :: 0 <= k < i ==> ValidTag(tags[k])
    {
      var ok := ValidateTag(tags[i]);
      if ok.Err? {
        return ok;
      }
      i := i + 1;
    }
    r := Ok(());
  }

  /** `deduplicate_tags`: each tag is looked up in the list built so far. */
  method DeduplicateTags(tags: seq<Text>) returns (unique: seq<Text>)
    ensures unique == Dedup(tags)
  {
    unique := [];
    var i := 0;
    while i < |tags|
      invariant 0 <= i <= |tags|
      invariant unique == Dedup(tags[..i])
    {
      var tag := tags[i];
      var found := false;
      var j := 0;
      while j < |unique|
        invariant 0 <= j <= |unique|
        invariant !found && forall k :: 0 <= k < j ==> unique[k] != tag
      {
        if unique[j] == tag {
          found := true;
          break;
        }
        j := j + 1;
      }
      assert found <==> tag in unique;
      if !found {
        unique := unique + [tag];
      }
      assert tags[..i + 1][..i] == tags[..i];
      i := i + 1;
    }
    assert tags[..i] == tags;
  }

  /** `contains_bytes`: a window is tried at every start position that fits. */
  method ContainsBytes(haystack: seq<Byte>, needle: seq<Byte>) returns (b: bool)
    ensures b <==> Occurs(needle, haystack)
    ensures |needle| > |haystack| ==> !b
  {
    if |needle| > |haystack| {
      return false;
    }
    var i := 0;
    while i <= |haystack| - |needle|
      invariant 0 <= i <= |haystack| - |needle| + 1
      invariant forall k: nat :: k < i ==> !MatchAt(haystack, needle, k)
    {
      var matches := true;
      var j := 0;
      while j < |needle|
        invariant 0 <= j <= |needle|
        invariant haystack[i..i + j] == needle[..j]
      {
        if haystack[i + j] != needle[j] {
          matches := false;
          break;
        }
        assert haystack[i..i + j + 1] == haystack[i..i + j] + [haystack[i + j]];
        assert needle[..j + 1] == needle[..j] + [needle[j]];
        j := j + 1;
      }
      if matches {
        assert needle[..j] == needle;
        assert MatchAt(haystack, needle, i);
        return true;
      }
      assert haystack[i..i + |needle|][j] != needle[j];
      i := i + 1;
    }
    b := false;
  }

  /** `auto_suggest_tags`: keywords are tried in table order and the scan stops at
      the fifth suggestion. */
  method AutoSuggestTags(rationale: Text) returns (suggestions: seq<Text>)
    ensures suggestions == Matches(rationale)[..Min(MAX_SUGGESTIONS, |Matches(rationale)|)]
  {
    var keywords := Keywords();
    suggestions := [];
    var k := 0;
    while k < |keywords|
      invariant 0 <= k <= |keywords|
      invariant suggestions == MatchesUpTo(rationale, k) && |suggestions| < MAX_SUGGESTIONS
    {
      var hit := ContainsBytes(rationale, keywords[k].0);
      if hit {
        suggestions := suggestions + [keywords[k].1];
        if |suggestions| >= MAX_SUGGESTIONS {
          MatchesPrefix(rationale, k + 1, |keywords|);
          return;
        }
      }
      k := k + 1;
    }
  }

  /** The registry's tag popularity counters. */
  class TagStore {
    var popularity: map<Text, nat>

    constructor ()
      ensures popularity == map[]
    {
      popularity := map[];
    }

    /** `increment_tag_popularity`. */
    method IncrementTagPopularity(tags: seq<Text>)
      modifies this
      ensures popularity == Bump(old(popularity), tags)
    {
      ghost var start := popularity;
      var i := 0;
      while i < |tags|
        invariant 0 <= i <= |tags|
        invariant popularity == Bump(start, tags[..i])
      {
        var tag := tags[i];
        var count := if tag in popularity then popularity[tag] else 0;
        popularity := popularity[tag := count + 1];
        assert tags[..i + 1][..i] == tags[..i];
        i := i + 1;
      }
      assert tags[..i] == tags;
    }

    /** `get_popular_tags`: the counters, bubble-sorted by count (a count is moved
        behind a larger one), cut to `limit`. The map's key order is not modelled:
        the entries are collected in an arbitrary order. */
    method GetPopularTags(limit: nat) returns (result: seq<(Text, nat)>)
      ensures |result| == Min(limit, |popularity|)
      ensures forall i :: 0 <= i < |result| ==> result[i].0 in popularity && popularity[result[i].0] == result[i].1
      ensures forall i, j :: 0 <= i < j < |result| ==> result[i].0 != result[j].0
      ensures forall i, j :: 0 <= i < j < |result| ==> result[i].1 >= result[j].1
      ensures forall t :: t in popularity && (forall i :: 0 <= i < |result| ==> result[i].0 != t) ==>
                (forall i :: 0 <= i < |result| ==> popularity[t] <= result[i].1)
    {
      var sorted := SortedEntries(popularity, ByCount);
      var n := Min(limit, |sorted|);
      TopTags(popularity, sorted, n);
      result := sorted[..n];
    }
  }

  /** The sort key of `get_popular_tags`. */
  function ByCount(e: (Text, nat)): Rank { Rank(e.1, 0) }

  /** The first `n` entries of a listing sorted by count are distinct tags with their
      counts, in non-increasing order, and no tag left out has a larger count. */
  lemma TopTags(m: map<Text, nat>, s: seq<(Text, nat)>, n: nat)
    requires Entries(m, s) && Ordered(s, ByCount) && n <= |s|
    ensures var r := s[..n];
            && (forall i :: 0 <= i < |r| ==> r[i].0 in m && m[r[i].0] == r[i].1)
            && (forall i, j :: 0 <= i < j < |r| ==> r[i].0 != r[j].0)
            && (forall i, j :: 0 <= i < j < |r| ==> r[i].1 >= r[j].1)
            && (forall t :: t in m && (forall i :: 0 <= i < |r| ==> r[i].0 != t) ==>
                  (forall i :: 0 <= i < |r| ==> m[t] <= r[i].1))
  {
    TopPrefix(m, s, n, ByCount);
    var r := s[..n];
    forall i, j | 0 <= i < j < |r|
      ensures r[i].1 >= r[j].1
    {
      assert !Precedes(ByCount(r[i]), ByCount(r[j]));
    }
    forall t, i | t in m && (forall l :: 0 <= l < |r| ==> r[l].0 != t) && 0 <= i < |r|
      ensures m[t] <= r[i].1
    {
      assert !Precedes(ByCount(r[i]), ByCount((t, m[t])));
    }
  }

  // ---------------------------------------------------------------------------
  // Properties

  /** The matches among the first `n` keywords are a prefix of those among the first `m`. */
  lemma {:induction false} MatchesPrefix(text: Text, n: nat, m: nat)
    requires n <= m <= |Keywords()|
    ensures |MatchesUpTo(text, n)| <= |MatchesUpTo(text, m)|
    ensures MatchesUpTo(text, n) == MatchesUpTo(text, m)[..|MatchesUpTo(text, n)|]
  {
    if n < m {
      MatchesPrefix(text, n, m - 1);
      var a := MatchesUpTo(text, m - 1);
      assert MatchesUpTo(text, m)[..|a|] == a;
      assert MatchesUpTo(text, m)[..|MatchesUpTo(text, n)|] == a[..|MatchesUpTo(text, n)|];
    }
  }

  /** `tag` is suggested by some keyword of the table that occurs in `text`. */
  predicate Suggested(text: Text, tag: Text)
  {
    exists k :: 0 <= k < |Keywords()| && Keywords()[k].1 == tag && Occurs(Keywords()[k].0, text)
  }

  lemma {:induction false} MatchesSound(text: Text, n: nat)
    requires n <= |Keywords()|
    ensures forall i :: 0 <= i < |MatchesUpTo(text, n)| ==> Suggested(text, MatchesUpTo(text, n)[i])
  {
    if n > 0 {
      MatchesSound(text, n - 1);
      var a := MatchesUpTo(text, n - 1);
      forall i | 0 <= i < |MatchesUpTo(text, n)|
        ensures Suggested(text, MatchesUpTo(text, n)[i])
      {
        if i < |a| {
          assert MatchesUpTo(text, n)[i] == a[i];
        } else {
          assert Keywords()[n - 1].1 == MatchesUpTo(text, n)[i] && Occurs(Keywords()[n - 1].0, text);
        }
      }
    }
  }

  lemma {:induction false} MatchesComplete(text: Text, n: nat)
    requires n <= |Keywords()|
    ensures forall k :: 0 <= k < n && Occurs(Keywords()[k].0, text) ==> Keywords()[k].1 in MatchesUpTo(text, n)
  {
    if n > 0 {
      MatchesComplete(text, n - 1);
    }
  }

  /** At most five suggestions come back, each the tag of a keyword the rationale
      contains; and when fewer than five come back, every keyword the rationale
      contains has its tag among them. */
  lemma SuggestionsMeaning(text: Text)
    ensures var s := Matches(text)[..Min(MAX_SUGGESTIONS, |Matches(text)|)];
            && |s| <= MAX_SUGGESTIONS
            && (forall i :: 0 <= i < |s| ==> Suggested(text, s[i]))
            && (|s| < MAX_SUGGESTIONS ==>
                  forall k :: 0 <= k < |Keywords()| && Occurs(Keywords()[k].0, text) ==> Keywords()[k].1 in s)
  {
    MatchesSound(text, |Keywords()|);
    MatchesComplete(text, |Keywords()|);
    var s := Matches(text)[..Min(MAX_SUGGESTIONS, |Matches(text)|)];
    forall i | 0 <= i < |s|
      ensures Suggested(text, s[i])
    {
      assert s[i] == Matches(text)[i];
    }
    if |s| < MAX_SUGGESTIONS {
      assert s == Matches(text);
    }
  }

  /** A rationale that mentions a breakout and a resistance level but not "breaking"
      is suggested "breakout" twice: the table maps several keywords to one tag and
      the suggestions are not de-duplicated. */
  lemma BreakoutSuggestedTwice(text: Text)
    requires Occurs(Ascii("breakout"), text) && Occurs(Ascii("resistance"), text) && !Occurs(Ascii("breaking"), text)
    ensures |Matches(text)| >= 2 && Matches(text)[..2] == [Ascii("breakout"), Ascii("breakout")]
  {
    var kw := Keywords();
    assert kw[0] == (Ascii("breakout"), Ascii("breakout"));
    assert kw[1] == (Ascii("breaking"), Ascii("breakout"));
    assert kw[2] == (Ascii("resistance"), Ascii("breakout"));
    assert MatchesUpTo(text, 1) == [Ascii("breakout")];
    assert MatchesUpTo(text, 2) == [Ascii("breakout")];
    assert MatchesUpTo(text, 3) == [Ascii("breakout"), Ascii("breakout")];
    MatchesPrefix(text, 3, |Keywords()|);
  }

  /** The tags kept are exactly the distinct tags of the input, each once. */
  lemma {:induction false} DedupDistinct(tags: seq<Text>)
    ensures NoDup(Dedup(tags))
    ensures forall t :: t in Dedup(tags) <==> t in tags
  {
    if tags != [] {
      var init := tags[..|tags| - 1];
      DedupDistinct(init);
      assert forall t :: t in tags <==> t in init || t == tags[|tags| - 1];
    }
  }

  /** Dropping the last element does not move a first occurrence earlier in the list. */
  lemma IndexOfInit(s: seq<Text>, x: Text)
    requires s != [] && x in s[..|s| - 1]
    ensures IndexOf(s, x) == IndexOf(s[..|s| - 1], x)
  {
    var init := s[..|s| - 1];
    IndexOfUnique(s, x, IndexOf(init, x));
  }

  /** The kept tags are in the order of their first occurrences in the input. */
  lemma {:induction false} DedupOrder(tags: seq<Text>)
    ensures forall i, j :: 0 <= i < j < |Dedup(tags)| ==> IndexOf(tags, Dedup(tags)[i]) < IndexOf(tags, Dedup(tags)[j])
  {
    if tags != [] {
      var init, last := tags[..|tags| - 1], tags[|tags| - 1];
      DedupOrder(init);
      DedupDistinct(init);
      DedupDistinct(tags);
      var u := Dedup(init);
      var d := Dedup(tags);
      forall i, j | 0 <= i < j < |d|
        ensures IndexOf(tags, d[i]) < IndexOf(tags, d[j])
      {
        assert d[i] == u[i] && d[i] in init;
        IndexOfInit(tags, d[i]);
        if j < |u| {
          assert d[j] == u[j] && d[j] in init;
          IndexOfInit(tags, d[j]);
        } else {
          assert d[j] == last && last !in init;
          IndexOfUnique(tags, last, |tags| - 1);
        }
      }
    }
  }

  /** A list without duplicates is left as it is. */
  lemma {:induction false} DedupKeepsDistinct(tags: seq<Text>)
    requires NoDup(tags)
    ensures Dedup(tags) == tags
  {
    if tags != [] {
      var init := tags[..|tags| - 1];
      assert NoDup(init);
      DedupKeepsDistinct(init);
      assert tags[|tags| - 1] !in init;
    }
  }

  /** De-duplicating a longer list keeps the de-duplication of its prefix in front. */
  lemma {:induction false} DedupPrefix(a: seq<Text>, b: seq<Text>)
    ensures |Dedup(a)| <= |Dedup(a + b)|
    ensures Dedup(a + b)[..|Dedup(a)|] == Dedup(a)
  {
    if b == [] {
      assert a + b == a;
    } else {
      var b' := b[..|b| - 1];
      DedupPrefix(a, b');
      assert (a + b)[..|a + b| - 1] == a + b';
    }
  }

  /** Applying de-duplication twice is the same as once. */
  lemma DedupIdempotent(tags: seq<Text>)
    ensures Dedup(Dedup(tags)) == Dedup(tags)
  {
    DedupDistinct(tags);
    DedupKeepsDistinct(Dedup(tags));
  }

  /** Counting a list of tags adds, for every tag, its number of occurrences in the list
      and leaves every other counter as it was. */
  lemma {:induction false} BumpMeaning(m: map<Text, nat>, tags: seq<Text>)
    ensures forall t :: Popularity(Bump(m, tags), t) == Popularity(m, t) + Count(tags, t)
    ensures Bump(m, tags).Keys == m.Keys + (set t | t in tags)
  {
    if tags != [] {
      var init := tags[..|tags| - 1];
      BumpMeaning(m, init);
      assert (set t | t in tags) == (set t | t in init) + {tags[|tags| - 1]} by {
        assert forall t :: t in tags <==> t in init || t == tags[|tags| - 1];
      }
    }
  }

  /** The tag tests: "bullish" and "high-risk" are valid tags, a 30-character tag is not,
      and the list [bullish, breakout, bullish] de-duplicates to two tags. */
  lemma TagExamples()
    ensures ValidTag(Ascii("bullish")) && ValidTag(Ascii("high-risk"))
    ensures !ValidTag(Ascii("this_is_way_too_long_for_a_tag"))
    ensures Dedup([Ascii("bullish"), Ascii("breakout"), Ascii("bullish")]) == [Ascii("bullish"), Ascii("breakout")]
  {
    var b, o := Ascii("bullish"), Ascii("breakout");
    assert b != o by { assert b[1] != o[1]; }
    DedupRepeat(b, o);
  }

  /** [x, y, x] with y other than x de-duplicates to [x, y]. */
  lemma DedupRepeat(x: Text, y: Text)
    requires x != y
    ensures Dedup([x, y, x]) == [x, y]
  {
    var s := [x, y, x];
    var noTags: seq<Text> := [];
    assert s[..2] == [x, y] && s[..2][..1] == [x] && [x][..0] == noTags;
    assert Dedup([x]) == [x];
    assert Dedup([x, y]) == [x, y];
  }

  /** Two signals tagged [bullish, breakout] and [bullish, momentum] leave "bullish"
      with the highest count, 2. */
  lemma PopularityExample()
    ensures var m := Bump(Bump(map[], [Ascii("bullish"), Ascii("breakout")]), [Ascii("bullish"), Ascii("momentum")]);
            Popularity(m, Ascii("bullish")) == 2 && forall t :: Popularity(m, t) <= 2
  {
    var b, o, u := Ascii("bullish"), Ascii("breakout"), Ascii("momentum");
    assert o != b by { assert b[1] != o[1]; }
    assert u != b by { assert b[0] != u[0]; }
    SharedTagCounts(b, o, u);
  }

  /** Counting [x, y] and then [x, z] from nothing, with y and z other than x,
      gives x the count 2 and no tag more. */
  lemma SharedTagCounts(x: Text, y: Text, z: Text)
    requires x != y && x != z
    ensures var m := Bump(Bump(map[], [x, y]), [x, z]);
            Popularity(m, x) == 2 && forall t :: Popularity(m, t) <= 2
  {
    var m0: map<Text, nat> := map[];
    BumpMeaning(m0, [x, y]);
    BumpMeaning(Bump(m0, [x, y]), [x, z]);
    PairCount(x, y);
    PairCount(x, z);
  }

  /** In a list of two different tags each occurs once and no other tag occurs. */
  lemma PairCount(x: Text, y: Text)
    requires x != y
    ensures forall t :: Count([x, y], t) == if t == x || t == y then 1 else 0
  {
    var noTags: seq<Text> := [];
    assert [x, y][..1] == [x] && [x][..0] == noTags;
  }
}
