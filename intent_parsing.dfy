/** Shaping a knowledge-base answer into the reply for one intent (IntentParsing.py). */
module IntentParsing {
  import opened Wrappers
  import opened Seqs
  import opened PyBuiltins

  /**
   * A WordNet synset, identified by the name WordNet itself gives it. This need not be the name
   * the code looks it up by: the lookup `wn.synset('motorcar.n.01')` yields the synset `car.n.01`.
   */
  type Concept = string

  /** The hypernym closure of one word sense: every synset reached by following hypernym links. */
  type Closure = set<Concept>

  /** What locationtagger reports for a text: its cities and its regions, in its own order. */
  datatype Locations = Locations(cities: seq<string>, regions: seq<string>)

  /**
   * The foreign libraries the module calls, supplied by the caller:
   * - wordSenses(w): one entry per WordNet sense of `w`, in WordNet's order (most common first),
   *   each the hypernym closure of that sense (`wn.synsets(w)[i].closure(hypernyms)`);
   * - synset(n): the synset `wn.synset(n)` looks up for the name `n`;
   * - findLocations(t): `locationtagger.find_locations(text=t)`;
   * - sentTokenize(t): NLTK's `sent_tokenize(t)`.
   */
  datatype Oracles = Oracles(
    wordSenses: string -> seq<Closure>,
    synset: string -> Concept,
    findLocations: string -> Locations,
    sentTokenize: string -> seq<string>)

  /** The Python exceptions the modelled code can raise. */
  datatype PyError = IndexError | TypeError

  // ---------------------------------------------------------------------------
  // get_words_in_synsets

  /** The word has a WordNet sense, and the closure of its first sense holds one of `targets`. */
  predicate InSynsets(wordSenses: string -> seq<Closure>, word: string, targets: seq<Concept>) {
    var senses := wordSenses(word);
    |senses| > 0 && AnyAmongFirst(targets, |targets|, senses[0])
  }

  /** Every token lowercased. */
  function LowerAll(tokens: seq<string>): (r: seq<string>)
    ensures |r| == |tokens|
    ensures forall k :: 0 <= k < |tokens| ==> r[k] == Lower(tokens[k])
  {
    seq(|tokens|, k requires 0 <= k < |tokens| => Lower(tokens[k]))
  }

  /** The whitespace-delimited tokens of `text`, lowercased, in text order. */
  function LoweredTokens(text: string): seq<string> {
    LowerAll(Split(text))
  }

  /** The words that pass the synset test, in order, repeats kept. */
  function Matching(wordSenses: string -> seq<Closure>, words: seq<string>, targets: seq<Concept>): (r: seq<string>)
    ensures forall x :: x in r <==> x in words && InSynsets(wordSenses, x, targets)
  {
    if words == [] then []
    else
      var last := words[|words| - 1];
      var prefix := words[..|words| - 1];
      assert words == prefix + [last];
      Matching(wordSenses, prefix, targets) + (if InSynsets(wordSenses, last, targets) then [last] else [])
  }

  /** `words` without repeats: each word kept where it first occurs. */
  function Dedup(words: seq<string>): (r: seq<string>)
    ensures NoDuplicates(r)
    ensures forall x :: x in r <==> x in words
  {
    if words == [] then []
    else
      var last := words[|words| - 1];
      var prefix := words[..|words| - 1];
      assert words == prefix + [last];
      var d := Dedup(prefix);
      if last in d then d else d + [last]
  }

  /** One more token: the words found so far grow by that token exactly when it passes the test and is new. */
  lemma WordsInSynsetsStep(wordSenses: string -> seq<Closure>, lowered: seq<string>, i: nat, targets: seq<Concept>)
    requires i < |lowered|
    ensures var before := Dedup(Matching(wordSenses, lowered[..i], targets));
      var w := lowered[i];
      Dedup(Matching(wordSenses, lowered[..i + 1], targets))
        == if InSynsets(wordSenses, w, targets) && w !in before then before + [w] else before
  {
    var w := lowered[i];
    var prefix := lowered[..i];
    assert lowered[..i + 1] == prefix + [w];
    var m := Matching(wordSenses, prefix, targets);
    assert (prefix + [w])[..i] == prefix;
    if InSynsets(wordSenses, w, targets) {
      assert Matching(wordSenses, prefix + [w], targets) == m + [w];
      assert (m + [w])[..|m|] == m;
    } else {
      assert Matching(wordSenses, prefix + [w], targets) == m + [];
      assert m + [] == m;
    }
  }

  /** Some synset among the first `j` of `targets` is in `closure`. */
  predicate AnyAmongFirst(targets: seq<Concept>, j: nat, closure: Closure)
    requires j <= |targets|
  {
    exists k :: 0 <= k < j && targets[k] in closure
  }

  /**
   * The inner loop of `get_words_in_synsets` over the target synsets: appends `word` once some target
   * is among the hypernyms, unless it is already listed.
   */
  method AppendIfHypernym(words0: seq<string>, word: string, hypernyms: Closure, synsets: seq<Concept>)
    returns (words: seq<string>)
    ensures words == if AnyAmongFirst(synsets, |synsets|, hypernyms) && word !in words0 then words0 + [word] else words0
  {
    words := words0;
    ghost var after := if word in words0 then words0 else words0 + [word];
    var j := 0;
    while j < |synsets|
      invariant 0 <= j <= |synsets|
      invariant words == if AnyAmongFirst(synsets, j, hypernyms) then after else words0
    {
      if synsets[j] in hypernyms && word !in words {
        words := words + [word];
      }
      assert AnyAmongFirst(synsets, j + 1, hypernyms) <==>
        AnyAmongFirst(synsets, j, hypernyms) || synsets[j] in hypernyms;
      j := j + 1;
    }
  }

  /** What `get_words_in_synsets(text, targets)` returns. */
  function WordsInSynsets(wordSenses: string -> seq<Closure>, text: string, targets: seq<Concept>): seq<string> {
    Dedup(Matching(wordSenses, LoweredTokens(text), targets))
  }

  /** `get_words_in_synsets`: the loop over the tokens and, for each, over the target synsets. */
  method GetWordsInSynsets(wordSenses: string -> seq<Closure>, text: string, synsets: seq<Concept>)
    returns (words: seq<string>)
    ensures words == WordsInSynsets(wordSenses, text, synsets)
  {
    var tokens := Split(text);
    ghost var lowered := LowerAll(tokens);
    words := [];
    var i := 0;
    while i < |tokens|
      invariant 0 <= i <= |tokens|
      invariant words == Dedup(Matching(wordSenses, lowered[..i], synsets))
    {
      var word := Lower(tokens[i]);
      var wordSynsets := wordSenses(word);
      if |wordSynsets| > 0 {
        var hypernyms := wordSynsets[0];
        words := AppendIfHypernym(words, word, hypernyms, synsets);
      }
      WordsInSynsetsStep(wordSenses, lowered, i, synsets);
      i := i + 1;
    }
    assert lowered[..|tokens|] == lowered;
  }

  /** Each word of `Dedup(s)` first occurs in `s` before the words after it. */
  lemma {:induction false} DedupKeepsFirstOccurrenceOrder(s: seq<string>, i: nat, j: nat)
    requires i < j < |Dedup(s)|
    ensures FirstIndex(s, Dedup(s)[i]) < FirstIndex(s, Dedup(s)[j])
    decreases |s|
  {
    var last := s[|s| - 1];
    var prefix := s[..|s| - 1];
    assert s == prefix + [last];
    var d := Dedup(prefix);
    FirstIndexOfExtended(prefix, last, Dedup(s)[i]);
    if j < |d| {
      FirstIndexOfExtended(prefix, last, Dedup(s)[j]);
      DedupKeepsFirstOccurrenceOrder(prefix, i, j);
    } else {
      assert last !in prefix;
      assert FirstIndex(s, last) == |prefix|;
    }
  }

  /** Appending an element does not move the first occurrence of anything already present. */
  lemma FirstIndexOfExtended(prefix: seq<string>, last: string, x: string)
    requires x in prefix
    ensures FirstIndex(prefix + [last], x) == FirstIndex(prefix, x)
  {
    var s := prefix + [last];
    var k := FirstIndex(prefix, x);
    assert s[k] == x;
    assert forall m :: 0 <= m < k ==> s[m] != x;
  }

  /** The synset filter keeps the order of first occurrences between the words it keeps. */
  lemma {:induction false} MatchingKeepsFirstOccurrenceOrder(wordSenses: string -> seq<Closure>,
      words: seq<string>, targets: seq<Concept>, x: string, y: string)
    requires x in Matching(wordSenses, words, targets) && y in Matching(wordSenses, words, targets)
    ensures FirstIndex(Matching(wordSenses, words, targets), x) < FirstIndex(Matching(wordSenses, words, targets), y)
        <==> FirstIndex(words, x) < FirstIndex(words, y)
    decreases |words|
  {
    var last := words[|words| - 1];
    var prefix := words[..|words| - 1];
    assert words == prefix + [last];
    var m := Matching(wordSenses, prefix, targets);
    var mw := Matching(wordSenses, words, targets);
    if x in m && y in m {
      MatchingKeepsFirstOccurrenceOrder(wordSenses, prefix, targets, x, y);
      FirstIndexOfExtended(prefix, last, x);
      FirstIndexOfExtended(prefix, last, y);
      if mw != m {
        FirstIndexOfExtended(m, last, x);
        FirstIndexOfExtended(m, last, y);
      }
    } else if x in m {
      assert y == last && y !in prefix && mw == m + [y];
      FirstIndexOfExtended(prefix, last, x);
      FirstIndexOfExtended(m, last, x);
      assert FirstIndex(words, y) == |prefix|;
      assert FirstIndex(mw, y) == |m|;
    } else if y in m {
      assert x == last && x !in prefix && mw == m + [x];
      FirstIndexOfExtended(prefix, last, y);
      FirstIndexOfExtended(m, last, y);
      assert FirstIndex(words, x) == |prefix|;
      assert FirstIndex(mw, x) == |m|;
    }
  }

  /**
   * The words returned are distinct; each is a lowercased token of the text that passes the synset
   * test; and every token that passes it is returned, lowercased.
   */
  lemma WordsInSynsetsSoundAndComplete(wordSenses: string -> seq<Closure>, text: string, targets: seq<Concept>)
    ensures NoDuplicates(WordsInSynsets(wordSenses, text, targets))
    ensures forall w :: w in WordsInSynsets(wordSenses, text, targets) <==>
      (exists k :: 0 <= k < |Split(text)| && Lower(Split(text)[k]) == w) && InSynsets(wordSenses, w, targets)
  {
    var lowered := LoweredTokens(text);
    forall w ensures w in lowered <==> exists k :: 0 <= k < |Split(text)| && Lower(Split(text)[k]) == w {
      if w in lowered {
        var k :| 0 <= k < |lowered| && lowered[k] == w;
        assert Lower(Split(text)[k]) == w;
      }
    }
  }

  /** The words returned come in the order of their first occurrence among the text's lowered tokens. */
  lemma WordsInSynsetsInTextOrder(wordSenses: string -> seq<Closure>, text: string, targets: seq<Concept>, i: nat, j: nat)
    requires i < j < |WordsInSynsets(wordSenses, text, targets)|
    ensures var r := WordsInSynsets(wordSenses, text, targets);
      r[i] in LoweredTokens(text) && r[j] in LoweredTokens(text) &&
      FirstIndex(LoweredTokens(text), r[i]) < FirstIndex(LoweredTokens(text), r[j])
  {
    var m := Matching(wordSenses, LoweredTokens(text), targets);
    DedupKeepsFirstOccurrenceOrder(m, i, j);
    MatchingKeepsFirstOccurrenceOrder(wordSenses, LoweredTokens(text), targets, Dedup(m)[i], Dedup(m)[j]);
  }

  lemma {:induction false} MatchingOfNoTargets(wordSenses: string -> seq<Closure>, words: seq<string>)
    ensures Matching(wordSenses, words, []) == []
    decreases |words|
  {
    if words != [] {
      MatchingOfNoTargets(wordSenses, words[..|words| - 1]);
    }
  }

  /** A blank text, or an empty list of target synsets, yields no words. */
  lemma WordsInSynsetsOfNothing(wordSenses: string -> seq<Closure>, text: string, targets: seq<Concept>)
    requires (forall k :: 0 <= k < |text| ==> IsSpace(text[k])) || targets == []
    ensures WordsInSynsets(wordSenses, text, targets) == []
  {
    var m := Matching(wordSenses, LoweredTokens(text), targets);
    if forall k :: 0 <= k < |text| ==> IsSpace(text[k]) {
      SplitOfBlank(text);
      assert LoweredTokens(text) == [];
    } else {
      MatchingOfNoTargets(wordSenses, LoweredTokens(text));
    }
  }

  // ---------------------------------------------------------------------------
  // create_word_list_string

  /** The words separated by `", "`. */
  function Join(words: seq<string>): string {
    if |words| == 0 then ""
    else if |words| == 1 then words[0]
    else Join(words[..|words| - 1]) + ", " + words[|words| - 1]
  }

  /** `create_word_list_string`: appends `word + ', '` for every word, then cuts the last two characters. */
  method CreateWordListString(words: seq<string>) returns (s: string)
    ensures s == Join(words)
    ensures words == [] ==> s == ""
    ensures |words| == 1 ==> s == words[0]
  {
    if |words| > 0 {
      var response := "";
      var i := 0;
      while i < |words|
        invariant 0 <= i <= |words|
        invariant i == 0 ==> response == ""
        invariant i > 0 ==> response == Join(words[..i]) + ", "
      {
        assert words[..i + 1][..i] == words[..i];
        response := response + words[i] + ", ";
        i := i + 1;
      }
      assert words[..|words|] == words;
      s := response[..|response| - 2];
    } else {
      s := "";
    }
  }

  /** The sum of the lengths of the words. */
  function TotalLength(words: seq<string>): nat {
    if words == [] then 0 else TotalLength(words[..|words| - 1]) + |words[|words| - 1]|
  }

  /** The joined list holds every character of the words plus two per separator. */
  lemma {:induction false} JoinLength(words: seq<string>)
    requires |words| > 0
    ensures |Join(words)| == TotalLength(words) + 2 * (|words| - 1)
    decreases |words|
  {
    if |words| > 1 {
      JoinLength(words[..|words| - 1]);
    } else {
      assert words[..0] == [];
    }
  }

  /** Read from the front: the first word, `", "`, then the rest joined. */
  lemma {:induction false} JoinCons(w: string, rest: seq<string>)
    requires |rest| > 0
    ensures Join([w] + rest) == w + ", " + Join(rest)
    decreases |rest|
  {
    var s := [w] + rest;
    assert s[..|s| - 1] == [w] + rest[..|rest| - 1];
    if |rest| > 1 {
      JoinCons(w, rest[..|rest| - 1]);
    } else {
      assert s[..|s| - 1] == [w];
    }
  }

  /** Splitting the joined list on `", "` gives back the words, when no word holds a comma. */
  lemma {:induction false} JoinSplitsBack(words: seq<string>)
    requires |words| > 0
    ensures (forall i :: 0 <= i < |words| ==> ',' !in words[i]) ==> SplitOnCommaSpace(Join(words)) == words
    decreases |words|
  {
    if forall i :: 0 <= i < |words| ==> ',' !in words[i] {
      if |words| == 1 {
        SplitOnCommaSpaceWhole(words[0]);
      } else {
        assert words == [words[0]] + words[1..];
        JoinCons(words[0], words[1..]);
        assert forall i :: 0 <= i < |words[1..]| ==> ',' !in words[1..][i] by {
          forall i | 0 <= i < |words[1..]| ensures ',' !in words[1..][i] {
            assert words[1..][i] == words[i + 1];
          }
        }
        JoinSplitsBack(words[1..]);
        SplitOnCommaSpaceFirst(words[0], Join(words[1..]));
      }
    }
  }

  // ---------------------------------------------------------------------------
  // form_*_intent_response

  /** `sent_tokenize(kb_response)[0]`, which raises IndexError when the text has no sentence. */
  function FirstSentence(o: Oracles, kbResponse: string): (r: Result<string, PyError>)
    ensures r.Ok? <==> |o.sentTokenize(kbResponse)| > 0
    ensures r.Ok? ==> r.value == o.sentTokenize(kbResponse)[0]
    ensures r.Err? ==> r.error == IndexError
  {
    var sentences := o.sentTokenize(kbResponse);
    if |sentences| > 0 then Ok(sentences[0]) else Err(IndexError)
  }

  /**
   * The shape every list-building intent shares: `head` followed by the items joined, when there are
   * items; the first sentence of the text otherwise.
   */
  function ListOrFirstSentence(o: Oracles, kbResponse: string, items: seq<string>, head: string): (r: Result<string, PyError>)
    ensures items != [] ==> r.Ok? && |head| <= |r.value| && r.value[..|head|] == head
    ensures items != [] && (forall i :: 0 <= i < |items| ==> ',' !in items[i]) ==>
      r.Ok? && |head| <= |r.value| && SplitOnCommaSpace(r.value[|head|..]) == items
    ensures items == [] ==> (r.Ok? <==> |o.sentTokenize(kbResponse)| > 0)
    ensures items == [] && r.Ok? ==> r.value == o.sentTokenize(kbResponse)[0]
    ensures r.Err? ==> items == [] && r.error == IndexError
  {
    if |items| > 0 then
      JoinSplitsBack(items);
      assert (head + Join(items))[|head|..] == Join(items);
      Ok(head + Join(items))
    else
      FirstSentence(o, kbResponse)
  }

  function FormUnderstandIntentResponse(o: Oracles, kbResponse: string): (r: Result<string, PyError>)
    ensures r.Err? ==> r.error == IndexError
    ensures r.Ok? <==> |o.sentTokenize(kbResponse)| > 0
    ensures r.Ok? ==> r.value == o.sentTokenize(kbResponse)[0]
  {
    FirstSentence(o, kbResponse)
  }

  function FormCitiesIntentResponse(o: Oracles, kbResponse: string, countryName: string): (r: Result<string, PyError>)
    ensures r.Err? ==> r.error == IndexError
    ensures var cities := o.findLocations(kbResponse).cities;
      && (cities != [] ==> r == Ok("Here are the best cities to visit in " + countryName + ": " + Join(cities)))
      && (cities == [] ==> r == FirstSentence(o, kbResponse))
  {
    ListOrFirstSentence(o, kbResponse, o.findLocations(kbResponse).cities,
      "Here are the best cities to visit in " + countryName + ": ")
  }

  function FormRegionsIntentResponse(o: Oracles, kbResponse: string, countryName: string): (r: Result<string, PyError>)
    ensures r.Err? ==> r.error == IndexError
    ensures var regions := o.findLocations(kbResponse).regions;
      && (regions != [] ==> r == Ok("Here are the best areas of " + countryName + "to visit: " + Join(regions)))
      && (regions == [] ==> r == FirstSentence(o, kbResponse))
  {
    ListOrFirstSentence(o, kbResponse, o.findLocations(kbResponse).regions,
      "Here are the best areas of " + countryName + "to visit: ")
  }

  /** The destinations are the regions followed by the cities, repeats kept. */
  function Destinations(o: Oracles, kbResponse: string): (r: seq<string>)
    ensures var loc := o.findLocations(kbResponse);
      |r| == |loc.regions| + |loc.cities|
      && (forall i :: 0 <= i < |loc.regions| ==> r[i] == loc.regions[i])
      && (forall i :: 0 <= i < |loc.cities| ==> r[|loc.regions| + i] == loc.cities[i])
  {
    var loc := o.findLocations(kbResponse);
    loc.regions + loc.cities
  }

  function FormDestinationsIntentResponse(o: Oracles, kbResponse: string, countryName: string): (r: Result<string, PyError>)
    ensures r.Err? ==> r.error == IndexError
    ensures Destinations(o, kbResponse) != [] ==>
      r == Ok("Here are some great spots to check out " + countryName + ": " + Join(Destinations(o, kbResponse)))
    ensures Destinations(o, kbResponse) == [] ==> r == FirstSentence(o, kbResponse)
  {
    ListOrFirstSentence(o, kbResponse, Destinations(o, kbResponse),
      "Here are some great spots to check out " + countryName + ": ")
  }

  /** `[wn.synset(n) for n in names]`: the synsets the builders look up by name, in order. */
  function SynsetsOf(o: Oracles, names: seq<string>): (r: seq<Concept>)
    ensures |r| == |names|
    ensures forall i :: 0 <= i < |names| ==> r[i] == o.synset(names[i])
  {
    seq(|names|, i requires 0 <= i < |names| => o.synset(names[i]))
  }

  /**
   * A word matches a list of looked-up names exactly when the closure of its first sense holds
   * the synset one of the names resolves to; the name itself need not occur in the closure.
   */
  lemma InSynsetsOfLookups(o: Oracles, word: string, names: seq<string>)
    ensures InSynsets(o.wordSenses, word, SynsetsOf(o, names)) <==>
      |o.wordSenses(word)| > 0 && exists i :: 0 <= i < |names| && o.synset(names[i]) in o.wordSenses(word)[0]
  {
    var targets := SynsetsOf(o, names);
    if |o.wordSenses(word)| > 0 && exists i :: 0 <= i < |names| && o.synset(names[i]) in o.wordSenses(word)[0] {
      var i :| 0 <= i < |names| && o.synset(names[i]) in o.wordSenses(word)[0];
      assert targets[i] in o.wordSenses(word)[0];
    }
  }

  const GetInSynsets: seq<string> := [
    "transportation.n.01", "vehicle.n.01", "car.n.01", "bus.n.01", "train.n.01",
    "aircraft.n.01", "ship.n.01", "boat.n.01", "helicopter.n.01"]

  function FormGetInIntentResponse(o: Oracles, kbResponse: string, countryName: string): (r: Result<string, PyError>)
    ensures r.Err? ==> r.error == IndexError
    ensures var words := WordsInSynsets(o.wordSenses, kbResponse, SynsetsOf(o, GetInSynsets));
      && (words != [] ==> r == Ok("To get to " + countryName
            + ", I recommend one of the following methods of transportation: " + Join(words)))
      && (words == [] ==> r == FirstSentence(o, kbResponse))
  {
    ListOrFirstSentence(o, kbResponse, WordsInSynsets(o.wordSenses, kbResponse, SynsetsOf(o, GetInSynsets)),
      "To get to " + countryName + ", I recommend one of the following methods of transportation: ")
  }

  const GetAroundSynsets: seq<string> := [
    "transportation.n.01", "vehicle.n.01", "car.n.01", "bus.n.01", "train.n.01",
    "subway.n.01", "tram.n.01", "aircraft.n.01", "taxi.n.01", "ship.n.01", "boat.n.01",
    "bicycle.n.01", "motorcycle.n.01", "scooter.n.01", "helicopter.n.01"]

  function FormGetAroundIntentResponse(o: Oracles, kbResponse: string, countryName: string): (r: Result<string, PyError>)
    ensures r.Err? ==> r.error == IndexError
    ensures var words := WordsInSynsets(o.wordSenses, kbResponse, SynsetsOf(o, GetAroundSynsets));
      && (words != [] ==> r == Ok("Here are the best ways to get around in " + countryName + ": " + Join(words)))
      && (words == [] ==> r == FirstSentence(o, kbResponse))
  {
    ListOrFirstSentence(o, kbResponse, WordsInSynsets(o.wordSenses, kbResponse, SynsetsOf(o, GetAroundSynsets)),
      "Here are the best ways to get around in " + countryName + ": ")
  }

  /**
   * The See, Stay_healthy, Stay_safe, Connect and Respect builders have the same
   * body: each answers with the first sentence. They are one function here.
   */
  function FormSentenceOnlyIntentResponse(o: Oracles, kbResponse: string, countryName: string): (r: Result<string, PyError>)
    ensures r.Err? ==> r.error == IndexError
    ensures r.Ok? <==> |o.sentTokenize(kbResponse)| > 0
    ensures r.Ok? ==> r.value == o.sentTokenize(kbResponse)[0]
  {
    FirstSentence(o, kbResponse)
  }

  const DoSynsets: seq<string> := [
    "do.v.01", "play.v.01", "participate.v.01", "practice.v.01", "explore.v.01", "discover.v.01"]

  /** The Do reply does not mention the country. */
  function FormDoIntentResponse(o: Oracles, kbResponse: string, countryName: string): (r: Result<string, PyError>)
    ensures r.Err? ==> r.error == IndexError
    ensures var words := WordsInSynsets(o.wordSenses, kbResponse, SynsetsOf(o, DoSynsets));
      && (words != [] ==> r == Ok("You can engage in all kinds of activities, like " + Join(words)))
      && (words == [] ==> r == FirstSentence(o, kbResponse))
  {
    ListOrFirstSentence(o, kbResponse, WordsInSynsets(o.wordSenses, kbResponse, SynsetsOf(o, DoSynsets)),
      "You can engage in all kinds of activities, like ")
  }

  const TalkSynsets: seq<string> := ["language.n.01"]

  function FormTalkIntentResponse(o: Oracles, kbResponse: string, countryName: string): (r: Result<string, PyError>)
    ensures r.Err? ==> r.error == IndexError
    ensures var words := WordsInSynsets(o.wordSenses, kbResponse, SynsetsOf(o, TalkSynsets));
      && (words != [] ==> r == Ok("Here are the languages that are spoken in " + countryName + ": " + Join(words)))
      && (words == [] ==> r == FirstSentence(o, kbResponse))
  {
    ListOrFirstSentence(o, kbResponse, WordsInSynsets(o.wordSenses, kbResponse, SynsetsOf(o, TalkSynsets)),
      "Here are the languages that are spoken in " + countryName + ": ")
  }

  const BuySynsets: seq<string> := [
    "product.n.01", "product.n.02", "product.n.03", "commodity.n.01", "merchandise.n.01", "article.n.01"]

  function FormBuyIntentResponse(o: Oracles, kbResponse: string, countryName: string): (r: Result<string, PyError>)
    ensures r.Err? ==> r.error == IndexError
    ensures var words := WordsInSynsets(o.wordSenses, kbResponse, SynsetsOf(o, BuySynsets));
      && (words != [] ==> r == Ok("Here are the best things you can buy in " + countryName + ": " + Join(words)))
      && (words == [] ==> r == FirstSentence(o, kbResponse))
  {
    ListOrFirstSentence(o, kbResponse, WordsInSynsets(o.wordSenses, kbResponse, SynsetsOf(o, BuySynsets)),
      "Here are the best things you can buy in " + countryName + ": ")
  }

  const EatSynsets: seq<string> := [
    "food.n.01", "drink.n.01", "fruit.n.01", "vegetable.n.01", "meat.n.01", "snack.n.01", "dessert.n.01"]

  function FormEatIntentResponse(o: Oracles, kbResponse: string, countryName: string): (r: Result<string, PyError>)
    ensures r.Err? ==> r.error == IndexError
    ensures var words := WordsInSynsets(o.wordSenses, kbResponse, SynsetsOf(o, EatSynsets));
      && (words != [] ==> r == Ok("Here are some foods that " + countryName + " is known for: " + Join(words)))
      && (words == [] ==> r == FirstSentence(o, kbResponse))
  {
    ListOrFirstSentence(o, kbResponse, WordsInSynsets(o.wordSenses, kbResponse, SynsetsOf(o, EatSynsets)),
      "Here are some foods that " + countryName + " is known for: ")
  }

  const DrinkSynsets: seq<string> := ["drink.n.01", "alcohol.n.01", "beverage.n.01"]

  function FormDrinkIntentResponse(o: Oracles, kbResponse: string, countryName: string): (r: Result<string, PyError>)
    ensures r.Err? ==> r.error == IndexError
    ensures var words := WordsInSynsets(o.wordSenses, kbResponse, SynsetsOf(o, DrinkSynsets));
      && (words != [] ==> r == Ok("Here are some drinks that " + countryName + " is known for: " + Join(words)))
      && (words == [] ==> r == FirstSentence(o, kbResponse))
  {
    ListOrFirstSentence(o, kbResponse, WordsInSynsets(o.wordSenses, kbResponse, SynsetsOf(o, DrinkSynsets)),
      "Here are some drinks that " + countryName + " is known for: ")
  }

  const SleepSynsets: seq<string> := [
    "lodging.n.01", "hotel.n.01", "motel.n.01", "resort.n.01", "guesthouse.n.01", "inn.n.01",
    "boarding_house.n.01", "bed_and_breakfast.n.01", "campground.n.01"]

  function FormSleepIntentResponse(o: Oracles, kbResponse: string, countryName: string): (r: Result<string, PyError>)
    ensures r.Err? ==> r.error == IndexError
    ensures var words := WordsInSynsets(o.wordSenses, kbResponse, SynsetsOf(o, SleepSynsets));
      && (words != [] ==> r == Ok("Here are the recommended options for spending your time in " + countryName
            + ": " + Join(words)))
      && (words == [] ==> r == FirstSentence(o, kbResponse))
  {
    ListOrFirstSentence(o, kbResponse, WordsInSynsets(o.wordSenses, kbResponse, SynsetsOf(o, SleepSynsets)),
      "Here are the recommended options for spending your time in " + countryName + ": ")
  }

  // ---------------------------------------------------------------------------
  // kb_intent_response

  /** The intent names `kb_intent_response` tests, in the order it tests them. */
  predicate IsIntentName(name: string) {
    || name == "Understand" || name == "Regions" || name == "Cities" || name == "Other_destinations"
    || name == "Get_in" || name == "Get_around" || name == "See" || name == "Do" || name == "Talk"
    || name == "Buy" || name == "Eat" || name == "Drink" || name == "Sleep" || name == "Stay_healthy"
    || name == "Stay_safe" || name == "Connect" || name == "Respect"
  }

  /** A builder's string result as the `Optional[str]` that `kb_intent_response` returns. */
  function AsReply(x: Result<string, PyError>): (r: Result<Option<string>, PyError>)
    ensures r.Ok? <==> x.Ok?
    ensures r.Ok? ==> r.value == Some(x.value)
    ensures r.Err? ==> r.error == x.error
  {
    match x
    case Ok(s) => Ok(Some(s))
    case Err(e) => Err(e)
  }

  /**
   * `kb_intent_response`: the reply for a named intent; `Ok(None)` for a name it does not know.
   * The Understand branch passes two arguments to a one-parameter function and so raises TypeError.
   */
  function KbIntentResponse(o: Oracles, kbResponse: string, intentName: string, countryName: string)
    : (r: Result<Option<string>, PyError>)
    ensures r == Ok(None) <==> !IsIntentName(intentName)
    ensures intentName == "Understand" ==> r == Err(TypeError)
    ensures r.Err? && intentName != "Understand" ==> r.error == IndexError
  {
    if intentName == "Understand" then Err(TypeError)
    else if intentName == "Regions" then AsReply(FormRegionsIntentResponse(o, kbResponse, countryName))
    else if intentName == "Cities" then AsReply(FormCitiesIntentResponse(o, kbResponse, countryName))
    else if intentName == "Other_destinations" then AsReply(FormDestinationsIntentResponse(o, kbResponse, countryName))
    else if intentName == "Get_in" then AsReply(FormGetInIntentResponse(o, kbResponse, countryName))
    else if intentName == "Get_around" then AsReply(FormGetAroundIntentResponse(o, kbResponse, countryName))
    else if intentName == "See" then AsReply(FormSentenceOnlyIntentResponse(o, kbResponse, countryName))
    else if intentName == "Do" then AsReply(FormDoIntentResponse(o, kbResponse, countryName))
    else if intentName == "Talk" then AsReply(FormTalkIntentResponse(o, kbResponse, countryName))
    else if intentName == "Buy" then AsReply(FormBuyIntentResponse(o, kbResponse, countryName))
    else if intentName == "Eat" then AsReply(FormEatIntentResponse(o, kbResponse, countryName))
    else if intentName == "Drink" then AsReply(FormDrinkIntentResponse(o, kbResponse, countryName))
    else if intentName == "Sleep" then AsReply(FormSleepIntentResponse(o, kbResponse, countryName))
    else if intentName == "Stay_healthy" then AsReply(FormSentenceOnlyIntentResponse(o, kbResponse, countryName))
    else if intentName == "Stay_safe" then AsReply(FormSentenceOnlyIntentResponse(o, kbResponse, countryName))
    else if intentName == "Connect" then AsReply(FormSentenceOnlyIntentResponse(o, kbResponse, countryName))
    else if intentName == "Respect" then AsReply(FormSentenceOnlyIntentResponse(o, kbResponse, countryName))
    else Ok(None)
  }

  /** A known intent other than Understand answers whenever the text has a first sentence. */
  lemma KnownIntentAnswers(o: Oracles, kbResponse: string, intentName: string, countryName: string)
    requires IsIntentName(intentName) && intentName != "Understand"
    requires |o.sentTokenize(kbResponse)| > 0
    ensures KbIntentResponse(o, kbResponse, intentName, countryName).Ok?
    ensures KbIntentResponse(o, kbResponse, intentName, countryName).value.Some?
  {
  }

  /** The Regions, Cities and Other_destinations intents are answered by their place-list builders. */
  lemma KbIntentResponseDispatchPlaces(o: Oracles, t: string, intentName: string, c: string)
    ensures intentName == "Regions" ==> KbIntentResponse(o, t, intentName, c) == AsReply(FormRegionsIntentResponse(o, t, c))
    ensures intentName == "Cities" ==> KbIntentResponse(o, t, intentName, c) == AsReply(FormCitiesIntentResponse(o, t, c))
    ensures intentName == "Other_destinations" ==> KbIntentResponse(o, t, intentName, c) == AsReply(FormDestinationsIntentResponse(o, t, c))
  {
  }

  /** The Get_in and Get_around intents are answered by their transport builders. */
  lemma KbIntentResponseDispatchTransport(o: Oracles, t: string, intentName: string, c: string)
    ensures intentName == "Get_in" ==> KbIntentResponse(o, t, intentName, c) == AsReply(FormGetInIntentResponse(o, t, c))
    ensures intentName == "Get_around" ==> KbIntentResponse(o, t, intentName, c) == AsReply(FormGetAroundIntentResponse(o, t, c))
  {
  }

  /** The Do and Talk intents are answered by their activity and language builders. */
  lemma KbIntentResponseDispatchActivities(o: Oracles, t: string, intentName: string, c: string)
    ensures intentName == "Do" ==> KbIntentResponse(o, t, intentName, c) == AsReply(FormDoIntentResponse(o, t, c))
    ensures intentName == "Talk" ==> KbIntentResponse(o, t, intentName, c) == AsReply(FormTalkIntentResponse(o, t, c))
  {
  }

  /** The Buy and Eat intents are answered by their product and food builders. */
  lemma KbIntentResponseDispatchShopping(o: Oracles, t: string, intentName: string, c: string)
    ensures intentName == "Buy" ==> KbIntentResponse(o, t, intentName, c) == AsReply(FormBuyIntentResponse(o, t, c))
    ensures intentName == "Eat" ==> KbIntentResponse(o, t, intentName, c) == AsReply(FormEatIntentResponse(o, t, c))
  {
  }

  /** The Drink and Sleep intents are answered by their drink and lodging builders. */
  lemma KbIntentResponseDispatchLodging(o: Oracles, t: string, intentName: string, c: string)
    ensures intentName == "Drink" ==> KbIntentResponse(o, t, intentName, c) == AsReply(FormDrinkIntentResponse(o, t, c))
    ensures intentName == "Sleep" ==> KbIntentResponse(o, t, intentName, c) == AsReply(FormSleepIntentResponse(o, t, c))
  {
  }

  /** The See, Stay_healthy, Stay_safe, Connect and Respect intents are answered with the first sentence. */
  lemma KbIntentResponseDispatchSentenceOnly(o: Oracles, t: string, intentName: string, c: string)
    ensures intentName == "See" ==> KbIntentResponse(o, t, intentName, c) == AsReply(FormSentenceOnlyIntentResponse(o, t, c))
    ensures intentName == "Stay_healthy" ==> KbIntentResponse(o, t, intentName, c) == AsReply(FormSentenceOnlyIntentResponse(o, t, c))
    ensures intentName == "Stay_safe" ==> KbIntentResponse(o, t, intentName, c) == AsReply(FormSentenceOnlyIntentResponse(o, t, c))
    ensures intentName == "Connect" ==> KbIntentResponse(o, t, intentName, c) == AsReply(FormSentenceOnlyIntentResponse(o, t, c))
    ensures intentName == "Respect" ==> KbIntentResponse(o, t, intentName, c) == AsReply(FormSentenceOnlyIntentResponse(o, t, c))
  {
  }

  /** The regions reply runs the country into "to visit" with no space between. */
  lemma RegionsReplyHasNoSpaceBeforeTo(o: Oracles, kbResponse: string)
    requires o.findLocations(kbResponse).regions == ["Nunavut", "Quebec"]
    ensures KbIntentResponse(o, kbResponse, "Regions", "Canada")
      == Ok(Some("Here are the best areas of Canadato visit: Nunavut, Quebec"))
  {
    var regions := o.findLocations(kbResponse).regions;
    assert regions[..1] == ["Nunavut"];
    assert Join(regions) == "Nunavut, Quebec";
    assert regions != [];
    assert "Here are the best areas of " + "Canada" + "to visit: " + "Nunavut, Quebec"
      == "Here are the best areas of Canadato visit: Nunavut, Quebec";
    assert FormRegionsIntentResponse(o, kbResponse, "Canada")
      == Ok("Here are the best areas of Canadato visit: Nunavut, Quebec");
    assert "Regions" != "Understand";
  }

  /** The destinations reply lists regions before cities and keeps a place reported as both. */
  lemma DestinationsReplyKeepsRepeats(o: Oracles, kbResponse: string)
    requires o.findLocations(kbResponse) == Locations(["Quebec"], ["Quebec"])
    ensures KbIntentResponse(o, kbResponse, "Other_destinations", "Canada")
      == Ok(Some("Here are some great spots to check out Canada: Quebec, Quebec"))
  {
    var items := Destinations(o, kbResponse);
    assert items == ["Quebec", "Quebec"];
    assert items[..1] == ["Quebec"];
    assert Join(items) == "Quebec, Quebec";
    assert "Here are some great spots to check out " + "Canada" + ": " + "Quebec, Quebec"
      == "Here are some great spots to check out Canada: Quebec, Quebec";
    assert FormDestinationsIntentResponse(o, kbResponse, "Canada")
      == Ok("Here are some great spots to check out Canada: Quebec, Quebec");
    assert "Other_destinations" != "Understand" && "Other_destinations" != "Regions"
      && "Other_destinations" != "Cities";
  }
}
