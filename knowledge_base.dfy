/** Filtering scraped sentences and building the scrape URL (KnowledgeBase.py). */
module KnowledgeBase {
  import opened Seqs
  import opened PyBuiltins
  import IntentParsing

  /** The page headers whose sections become knowledge-base documents, in scraping order. */
  const HeaderList: seq<string> := [
    "Regions", "Cities", "Other_destinations", "Get_in", "See", "Do", "Talk", "Buy", "Eat", "Drink",
    "Stay_healthy", "Stay_safe", "Connect", "Respect"]

  /** Fourteen distinct headers, without Understand, Get_around or Sleep. */
  lemma HeaderListShape()
    ensures |HeaderList| == 14 && NoDuplicates(HeaderList)
    ensures "Understand" !in HeaderList && "Get_around" !in HeaderList && "Sleep" !in HeaderList
  {
  }

  /** Every header names an intent that `kb_intent_response` answers, and none is the Understand intent. */
  lemma HeadersAreAnsweredIntents(h: string)
    requires h in HeaderList
    ensures IntentParsing.IsIntentName(h) && h != "Understand"
  {
  }

  // ---------------------------------------------------------------------------
  // validate_sentence_length

  /** A character the pattern `\w` matches: an ASCII letter or digit, or the underscore. */
  predicate IsWordChar(c: char) {
    'a' <= c <= 'z' || 'A' <= c <= 'Z' || '0' <= c <= '9' || c == '_'
  }

  /** `len(re.findall(r'\w+', s))`: the number of maximal runs of word characters in `s`. */
  function WordCount(s: string): (r: nat)
    ensures r <= |s|
    ensures r == 0 <==> forall k :: 0 <= k < |s| ==> !IsWordChar(s[k])
  {
    RunsFrom(s, false)
  }

  /** The runs of word characters in `s` that start in `s`, when `inRun` says a run is already open. */
  function RunsFrom(s: string, inRun: bool): (r: nat)
    ensures r <= |s|
    ensures !inRun ==> (r == 0 <==> forall k :: 0 <= k < |s| ==> !IsWordChar(s[k]))
    decreases |s|
  {
    if s == [] then 0
    else if IsWordChar(s[0]) then (if inRun then 0 else 1) + RunsFrom(s[1..], true)
    else RunsFrom(s[1..], false)
  }

  /** Two texts joined by a character that is not a word character: their counts add up. */
  lemma {:induction false} WordCountSeparated(a: string, sep: char, b: string)
    requires !IsWordChar(sep)
    ensures WordCount(a + [sep] + b) == WordCount(a) + WordCount(b)
  {
    RunsFromSeparated(a, sep, b, false);
  }

  lemma {:induction false} RunsFromSeparated(a: string, sep: char, b: string, inRun: bool)
    requires !IsWordChar(sep)
    ensures RunsFrom(a + [sep] + b, inRun) == RunsFrom(a, inRun) + RunsFrom(b, false)
    decreases |a|
  {
    var s := a + [sep] + b;
    if a == [] {
      assert s[1..] == b;
    } else {
      assert s[1..] == a[1..] + [sep] + b;
      RunsFromSeparated(a[1..], sep, b, IsWordChar(a[0]));
    }
  }

  /** One non-empty run of word characters is one word. */
  lemma {:induction false} WordCountOfRun(w: string)
    requires w != [] && forall k :: 0 <= k < |w| ==> IsWordChar(w[k])
    ensures WordCount(w) == 1
  {
    RunsFromInRun(w[1..]);
  }

  /** Inside an open run, further word characters start no new word. */
  lemma {:induction false} RunsFromInRun(w: string)
    requires forall k :: 0 <= k < |w| ==> IsWordChar(w[k])
    ensures RunsFrom(w, true) == 0
    decreases |w|
  {
    if w != [] {
      RunsFromInRun(w[1..]);
    }
  }

  /** A sentence `validate_sentence_length` drops: fewer than five words. */
  predicate IsShort(sentence: string) {
    WordCount(sentence) < 5
  }

  /** `list.remove(x)`: the list without its first element equal to `x`. */
  function RemoveFirst(s: seq<string>, x: string): (r: seq<string>)
    requires x in s
    ensures |r| == |s| - 1
    ensures multiset(r) == multiset(s) - multiset{x}
  {
    var k := FirstIndex(s, x);
    assert s == s[..k] + [x] + s[k + 1..];
    s[..k] + s[k + 1..]
  }

  /** `remove` on a list whose head is not the value removes from its tail. */
  lemma RemoveFirstCons(s: seq<string>, x: string)
    requires x in s
    ensures s[0] == x ==> RemoveFirst(s, x) == s[1..]
    ensures s[0] != x ==> x in s[1..] && RemoveFirst(s, x) == [s[0]] + RemoveFirst(s[1..], x)
  {
    if s[0] != x {
      var k := FirstIndex(s[1..], x);
      assert FirstIndex(s, x) == k + 1;
      assert s[..k + 1] == [s[0]] + s[1..][..k];
      assert s[k + 2..] == s[1..][k + 1..];
    }
  }

  /**
   * What the `for` loop leaves in the list once its iterator stands at index `i` of list `s`.
   * Python's list iterator reads `s[i]` while `i < len(s)` and then moves to `i + 1`; a `remove`
   * shifts every later element one place left, so the element after a removed one is never read.
   */
  function Sweep(s: seq<string>, i: nat): (r: seq<string>)
    ensures |r| <= |s|
    ensures forall x {:trigger multiset(r)[x]} :: !IsShort(x) ==> multiset(r)[x] == multiset(s)[x]
    decreases |s| - i
  {
    if i >= |s| then s
    else if IsShort(s[i]) then Sweep(RemoveFirst(s, s[i]), i + 1)
    else Sweep(s, i + 1)
  }

  /** The list `validate_sentence_length(s)` leaves. */
  function Validated(s: seq<string>): seq<string> {
    Sweep(s, 0)
  }

  /** A Python list of sentences, changed in place. */
  class SentenceList {
    var items: seq<string>

    constructor (items: seq<string>)
      ensures this.items == items
    {
      this.items := items;
    }
  }

  /**
   * `validate_sentence_length`: iterates over the list while removing its short sentences from it,
   * and returns the same list object.
   */
  method ValidateSentenceLength(sentences: SentenceList) returns (r: SentenceList)
    modifies sentences
    ensures r == sentences
    ensures sentences.items == Validated(old(sentences.items))
  {
    var i := 0;
    while i < |sentences.items|
      invariant Sweep(sentences.items, i) == Validated(old(sentences.items))
      decreases |sentences.items| - i
    {
      var sent := sentences.items[i];
      var numWords := WordCount(sent);
      if numWords < 5 {
        sentences.items := RemoveFirst(sentences.items, sent);
      }
      i := i + 1;
    }
    r := sentences;
  }

  /** The long sentences of `s`, in order: what the function is evidently meant to keep. */
  function LongSentences(s: seq<string>): (r: seq<string>)
    ensures forall k :: 0 <= k < |r| ==> !IsShort(r[k])
    ensures IsSubsequence(r, s)
    ensures |r| <= |s|
    ensures forall x :: IsShort(x) ==> multiset(r)[x] == 0
    ensures forall x :: !IsShort(x) ==> multiset(r)[x] == multiset(s)[x]
  {
    if s == [] then []
    else
      assert s == [s[0]] + s[1..];
      var rest := LongSentences(s[1..]);
      if IsShort(s[0]) then
        SubsequenceOfTail(rest, s);
        rest
      else
        [s[0]] + rest
  }

  /** Removing a short sentence leaves the long sentences as they were. */
  lemma {:induction false} RemoveShortKeepsLong(s: seq<string>, x: string)
    requires x in s && IsShort(x)
    ensures LongSentences(RemoveFirst(s, x)) == LongSentences(s)
    decreases |s|
  {
    RemoveFirstCons(s, x);
    if s[0] != x {
      RemoveShortKeepsLong(s[1..], x);
      assert ([s[0]] + RemoveFirst(s[1..], x))[1..] == RemoveFirst(s[1..], x);
    }
  }

  /** `list.remove` leaves a subsequence. */
  lemma {:induction false} RemoveFirstIsSubsequence(s: seq<string>, x: string)
    requires x in s
    ensures IsSubsequence(RemoveFirst(s, x), s)
    decreases |s|
  {
    RemoveFirstCons(s, x);
    if s[0] == x {
      SubsequenceReflexive(s[1..]);
      SubsequenceOfTail(s[1..], s);
    } else {
      RemoveFirstCons(s, x);
      RemoveFirstIsSubsequence(s[1..], x);
      assert ([s[0]] + RemoveFirst(s[1..], x))[1..] == RemoveFirst(s[1..], x);
    }
  }

  /** The loop only removes: what is left is a subsequence of the input. */
  lemma {:induction false} SweepIsSubsequence(s: seq<string>, i: nat)
    ensures IsSubsequence(Sweep(s, i), s)
    decreases |s| - i
  {
    if i >= |s| {
      SubsequenceReflexive(s);
    } else if IsShort(s[i]) {
      var t := RemoveFirst(s, s[i]);
      SweepIsSubsequence(t, i + 1);
      RemoveFirstIsSubsequence(s, s[i]);
      SubsequenceTransitive(Sweep(t, i + 1), t, s);
    } else {
      SweepIsSubsequence(s, i + 1);
    }
  }

  /** The loop never removes a long sentence: the long sentences stay, in order. */
  lemma {:induction false} SweepKeepsLong(s: seq<string>, i: nat)
    ensures LongSentences(Sweep(s, i)) == LongSentences(s)
    decreases |s| - i
  {
    if i < |s| {
      if IsShort(s[i]) {
        SweepKeepsLong(RemoveFirst(s, s[i]), i + 1);
        RemoveShortKeepsLong(s, s[i]);
      } else {
        SweepKeepsLong(s, i + 1);
      }
    }
  }

  /**
   * The result of `validate_sentence_length` is a subsequence of its input that keeps every long
   * sentence (with its multiplicity, in order); every sentence it removed was short.
   */
  lemma ValidatedRemovesOnlyShort(s: seq<string>)
    ensures IsSubsequence(Validated(s), s)
    ensures LongSentences(Validated(s)) == LongSentences(s)
    ensures forall x :: !IsShort(x) ==> multiset(Validated(s))[x] == multiset(s)[x]
    ensures forall x :: multiset(Validated(s))[x] < multiset(s)[x] ==> IsShort(x)
  {
    SweepIsSubsequence(s, 0);
    SweepKeepsLong(s, 0);
    forall x | !IsShort(x)
      ensures multiset(Validated(s))[x] == multiset(s)[x]
    {
      assert multiset(LongSentences(Validated(s)))[x] == multiset(Validated(s))[x];
      assert multiset(LongSentences(s))[x] == multiset(s)[x];
    }
  }

  /** Removing from a list of short sentences leaves short sentences only. */
  lemma RemoveFirstKeepsShortOnly(s: seq<string>, x: string)
    requires x in s
    requires forall k :: 0 <= k < |s| ==> IsShort(s[k])
    ensures forall k :: 0 <= k < |RemoveFirst(s, x)| ==> IsShort(RemoveFirst(s, x)[k])
  {
    var t := RemoveFirst(s, x);
    var f := FirstIndex(s, x);
    forall k | 0 <= k < |t| ensures IsShort(t[k]) {
      assert t[k] == if k < f then s[k] else s[k + 1];
    }
  }

  /** A list of short sentences only: the loop removes every other one, so half of them are left. */
  lemma {:induction false} SweepOfShortOnly(s: seq<string>, i: nat)
    requires forall k :: 0 <= k < |s| ==> IsShort(s[k])
    requires i <= |s|
    ensures |Sweep(s, i)| == (|s| + i) / 2
    decreases |s| - i
  {
    if i < |s| {
      var t := RemoveFirst(s, s[i]);
      RemoveFirstKeepsShortOnly(s, s[i]);
      assert Sweep(s, i) == Sweep(t, i + 1);
      if i + 1 <= |t| {
        SweepOfShortOnly(t, i + 1);
      }
    }
  }

  /** `validate_sentence_length` on short sentences only leaves half of them (rounded down). */
  lemma ValidatedOfShortOnly(s: seq<string>)
    requires forall k :: 0 <= k < |s| ==> IsShort(s[k])
    ensures |Validated(s)| == |s| / 2
  {
    SweepOfShortOnly(s, 0);
  }

  /** Two short sentences in a row: the first is removed and the second is never examined. */
  lemma ValidatedSkipsAfterRemoval(a: string, b: string)
    requires IsShort(a) && IsShort(b)
    ensures Validated([a, b]) == [b]
  {
    assert FirstIndex([a, b], a) == 0;
    assert RemoveFirst([a, b], a) == [b];
    assert Sweep([b], 1) == [b];
  }

  /** An empty list stays empty. */
  lemma ValidatedOfEmpty()
    ensures Validated([]) == []
  {
  }

  // ---------------------------------------------------------------------------
  // the URL in `scrape`

  const WikivoyageBase: string := "https://en.m.wikivoyage.org/wiki/"

  /**
   * The page name for a country: `country.replace(" ", "_")` when `country.find(" ")` is truthy,
   * that is, unless the name starts with a space.
   */
  function CountrySlug(country: string): (slug: string)
    ensures |slug| == |country|
    ensures country != [] && country[0] == ' ' ==> slug == country
    ensures country == [] || country[0] != ' ' ==>
      ' ' !in slug && forall k :: 0 <= k < |country| ==> slug[k] == if country[k] == ' ' then '_' else country[k]
  {
    if Find(country, ' ') != 0 then Replace(country, ' ', '_') else country
  }

  /** The page `scrape` fetches for a country. */
  function ScrapeUrl(country: string): (url: string)
    ensures |url| == |WikivoyageBase| + |country|
    ensures url[..|WikivoyageBase|] == WikivoyageBase
    ensures url[|WikivoyageBase|..] == CountrySlug(country)
  {
    WikivoyageBase + CountrySlug(country)
  }

  /** A two-word name gets an underscore between its words; a space in front stops all replacement. */
  lemma ScrapeUrlOfTwoWords(a: string, b: string)
    requires a != [] && ' ' !in a && ' ' !in b
    ensures ScrapeUrl(a + " " + b) == WikivoyageBase + a + "_" + b
    ensures ScrapeUrl(" " + a + " " + b) == WikivoyageBase + " " + a + " " + b
  {
    var c := a + " " + b;
    var slug := CountrySlug(c);
    assert c[0] == a[0];
    forall k | 0 <= k < |c| ensures slug[k] == (a + "_" + b)[k] {
      if k < |a| {
        assert c[k] == a[k];
      } else if k > |a| {
        assert c[k] == b[k - |a| - 1];
      }
    }
    assert slug == a + "_" + b;
    assert (" " + a + " " + b)[0] == ' ';
  }
}
