# TravelAgent: intent replies and scraped-sentence filtering, in Dafny

This project models the two pure-logic parts of the TravelAgent chatbot.

- `IntentParsing.py` turns a knowledge-base answer into the reply for one Dialogflow intent:
  - `get_words_in_synsets` picks the words of the answer that WordNet places under given synsets;
  - `create_word_list_string` joins them with `", "`;
  - one `form_*_intent_response` builder per intent fills the intent's template, or falls back to the first sentence of the answer;
  - `kb_intent_response` chooses the builder by intent name.
- `KnowledgeBase.py` prepares the scraped Wikivoyage text:
  - `validate_sentence_length` drops sentences of fewer than five words from a list, in place (skipping the one after each removal);
  - `scrape` builds the page URL from the country name;
  - `HEADER_LIST` names the page sections that become documents.

Files and modules:

- `wrappers.dfy` (`Wrappers`): `Option` for Python's `None`, `Result` for a raised exception.
- `seqs.dfy` (`Seqs`): first occurrence, no duplicates, subsequence.
- `python_builtins.dfy` (`PyBuiltins`): the Python string built-ins the code calls: `str.split()`, `str.lower()`, `str.find` and `str.replace`. It also defines `str.split(', ')`, which the code never calls; the model adds it only to read a joined list back.
- `intent_parsing.dfy` (`IntentParsing`): IntentParsing.py.
- `knowledge_base.dfy` (`KnowledgeBase`): KnowledgeBase.py.

How the model is built:

- **Foreign libraries.** WordNet, locationtagger and NLTK's `sent_tokenize` are fields of an `Oracles` value that the caller supplies.
  - WordNet gives, for each word, one hypernym closure per sense, in WordNet's order. It also gives the synset `wn.synset(name)` looks up for a name; the synset can carry another name (`motorcar.n.01` looks up `car.n.01`). The builders match against the looked-up synsets, not the names.
  - locationtagger gives a list of cities and a list of regions.
  - `sent_tokenize` gives a list of sentences.
  - Nothing is assumed about any of them.
- **Loops.** `get_words_in_synsets` and `create_word_list_string` build their results in loops, so they are methods.
  - Each method is proved equal to a function: `WordsInSynsets` and `Join`.
  - The builders are pure, so they are functions, and they use those two functions.
- **Exceptions.** The model keeps two of the exceptions the code can raise, as `Err` results. The WordNetError of an unknown synset name is not modelled (see "## Left out").
  - `IndexError`: `sent_tokenize(kb_response)[0]` on a text with no sentence.
  - `TypeError`: the `Understand` branch of `kb_intent_response` passes two arguments to the one-parameter `form_understand_intent_response`.
  - The "no matching intent" case returns `Ok(None)`.
- **The list filter.** `validate_sentence_length` works on a `SentenceList` object, and the method changes its `items` field.
  - The reference function `Sweep` follows Python's list iterator: it reads index `i` while `i < len`, then moves to `i + 1`.
  - `list.remove` deletes the first equal element, so the element after a removed one is never examined. The model keeps this behaviour.

Other details of the code as written, which the model keeps:

- The regions reply has no space between the country and "to visit" (`"...areas of Canadato visit: ..."`).
- The destinations list is the regions followed by the cities, with repeats kept.
- The slug test `if country.find(" ")` is false only when the name starts with a space, because `find` then returns 0. Only then are the spaces kept.

## Model

| member | source | states |
|---|---|---|
| PyBuiltins.Split | IntentParsing.py:10 | `text.split()` yields non-empty tokens without whitespace whose concatenation is exactly the text's non-whitespace characters |
| PyBuiltins.SplitOfToken | IntentParsing.py:10 | a run of non-whitespace characters is one piece: `split()` never cuts inside a run |
| PyBuiltins.SplitSkipsSpace | IntentParsing.py:10 | leading whitespace is skipped and yields no piece |
| PyBuiltins.SplitOfTokenThenSpace | IntentParsing.py:10 | a run ended by whitespace is the first piece, and the rest of the text is split on its own: the pieces are the maximal runs |
| PyBuiltins.SplitOfBlank | IntentParsing.py:10 | a text of whitespace only has no tokens |
| PyBuiltins.Lower | IntentParsing.py:11 | `word.lower()` keeps the length and lowercases each letter |
| IntentParsing.LowerAll | IntentParsing.py:10-11 | the i-th lowered token is the lowercase of the i-th token |
| IntentParsing.Matching | IntentParsing.py:12-17 | a word is kept exactly when it is among the words, has at least one WordNet sense, and the hypernym closure of its first sense holds a target synset |
| IntentParsing.Dedup | IntentParsing.py:18-19 | the `if word not in words` append gives a list with no repeats and exactly the same members |
| IntentParsing.AppendIfHypernym | IntentParsing.py:16-19 | the inner loop over the synsets appends the word once, when some target is among its hypernyms and the word is not yet listed; otherwise the list is unchanged |
| IntentParsing.GetWordsInSynsets | IntentParsing.py:7-20 | the nested loops return exactly `WordsInSynsets(text, synsets)` |
| IntentParsing.WordsInSynsetsStep | IntentParsing.py:10-19 | one more token extends the result by that token exactly when it matches and is new |
| IntentParsing.WordsInSynsetsSoundAndComplete | IntentParsing.py:10-19 | the result has no repeats; a word is in it if and only if it is the lowercase of some token of the text and its first WordNet sense has a target synset among its hypernyms |
| IntentParsing.DedupKeepsFirstOccurrenceOrder | IntentParsing.py:18-19 | deduplication keeps words in the order of their first occurrence |
| IntentParsing.MatchingKeepsFirstOccurrenceOrder | IntentParsing.py:10-17 | the synset filter keeps the relative order of first occurrences, in both directions |
| IntentParsing.WordsInSynsetsInTextOrder | IntentParsing.py:10-19 | returned words come in the order of their first occurrence among the text's lowered tokens |
| IntentParsing.MatchingOfNoTargets | IntentParsing.py:16 | with no target synsets, no word matches |
| IntentParsing.WordsInSynsetsOfNothing | IntentParsing.py:9-20 | a blank text or an empty synset list gives an empty result |
| IntentParsing.CreateWordListString | IntentParsing.py:22-29 | the loop plus the final slice give exactly `Join(words)`: `''` for no words, the word itself for one |
| IntentParsing.JoinLength | IntentParsing.py:22-29 | the joined list is as long as all words together plus two characters per separator, n-1 separators |
| IntentParsing.JoinCons | IntentParsing.py:25-27 | the joined list is the first word, `", "`, then the rest joined |
| IntentParsing.JoinSplitsBack | IntentParsing.py:22-29 | splitting the joined list on `", "` gives back the words when none holds a comma: no trailing separator and nothing added |
| PyBuiltins.SplitOnCommaSpaceFirst | IntentParsing.py:26 | a comma-free word followed by `", "` splits off as the first piece |
| PyBuiltins.SplitOnCommaSpaceWhole | IntentParsing.py:27 | a comma-free word does not split |
| IntentParsing.FirstSentence | IntentParsing.py:31 | `sent_tokenize(t)[0]` succeeds exactly when there is a sentence, returns the first one, and raises IndexError otherwise |
| IntentParsing.ListOrFirstSentence | IntentParsing.py:36-38 | with items, the reply never fails and starts with the template head; when no item holds a comma, its tail splits back into the items; without items it is the first sentence or IndexError |
| IntentParsing.FormUnderstandIntentResponse | IntentParsing.py:30-31 | the reply is the first sentence; it fails only when there is none |
| IntentParsing.FormCitiesIntentResponse | IntentParsing.py:33-38 | with cities, the exact cities template with the country and the joined cities; otherwise the first sentence |
| IntentParsing.FormRegionsIntentResponse | IntentParsing.py:39-44 | with regions, exactly `'Here are the best areas of ' + country + 'to visit: '` and the joined regions; otherwise the first sentence |
| IntentParsing.Destinations | IntentParsing.py:48 | the destinations are all regions, then all cities, in order, without deduplication |
| IntentParsing.FormDestinationsIntentResponse | IntentParsing.py:46-51 | with destinations, the exact destinations template and the joined destinations; otherwise the first sentence |
| IntentParsing.SynsetsOf | IntentParsing.py:54-63 | the list of `wn.synset(...)` lookups is, position by position, the synset each name resolves to |
| IntentParsing.InSynsetsOfLookups | IntentParsing.py:13-16 | a word matches the looked-up targets if and only if it has a sense and its first sense's closure holds the synset some listed name resolves to, whatever name that synset carries |
| IntentParsing.FormGetInIntentResponse | IntentParsing.py:53-70 | with transport words for its nine synsets, the exact get-in template; otherwise the first sentence |
| IntentParsing.FormGetAroundIntentResponse | IntentParsing.py:72-95 | with transport words for its fifteen synsets, the exact get-around template; otherwise the first sentence |
| IntentParsing.FormSentenceOnlyIntentResponse | IntentParsing.py:97-99 | the See reply, like the identically written Stay_healthy, Stay_safe, Connect and Respect builders, is the first sentence; it fails only when there is none |
| IntentParsing.FormDoIntentResponse | IntentParsing.py:101-115 | with activity words, the exact activities template, which names no country; otherwise the first sentence |
| IntentParsing.FormTalkIntentResponse | IntentParsing.py:117-125 | with language words, the exact languages template; otherwise the first sentence |
| IntentParsing.FormBuyIntentResponse | IntentParsing.py:127-141 | with product words, the exact products template; otherwise the first sentence |
| IntentParsing.FormEatIntentResponse | IntentParsing.py:143-157 | with food words, the exact foods template; otherwise the first sentence |
| IntentParsing.FormDrinkIntentResponse | IntentParsing.py:159-169 | with drink words, the exact drinks template; otherwise the first sentence |
| IntentParsing.FormSleepIntentResponse | IntentParsing.py:170-186 | with lodging words, the exact lodging template; otherwise the first sentence |
| IntentParsing.AsReply | IntentParsing.py:201-202 | a builder's reply is returned unchanged as an optional string, and its exception is passed on |
| IntentParsing.KbIntentResponse | IntentParsing.py:198-232 | the result is `None` if and only if the name is not one of the 17 intents; Understand always raises TypeError; any other exception is IndexError |
| IntentParsing.KbIntentResponseDispatchPlaces | IntentParsing.py:201-206 | Regions, Cities and Other_destinations are answered by `form_regions`, `form_cities` and `form_destinations` respectively |
| IntentParsing.KbIntentResponseDispatchTransport | IntentParsing.py:207-210 | Get_in and Get_around are answered by `form_get_in` and `form_get_around` |
| IntentParsing.KbIntentResponseDispatchActivities | IntentParsing.py:213-216 | Do and Talk are answered by `form_do` and `form_talk` |
| IntentParsing.KbIntentResponseDispatchShopping | IntentParsing.py:217-220 | Buy and Eat are answered by `form_buy` and `form_eat` |
| IntentParsing.KbIntentResponseDispatchLodging | IntentParsing.py:221-224 | Drink and Sleep are answered by `form_drink` and `form_sleep` |
| IntentParsing.KbIntentResponseDispatchSentenceOnly | IntentParsing.py:211-232 | See, Stay_healthy, Stay_safe, Connect and Respect are answered by the first-sentence builder |
| IntentParsing.KnownIntentAnswers | IntentParsing.py:201-232 | every known intent except Understand gives a reply whenever the text has a sentence |
| IntentParsing.RegionsReplyHasNoSpaceBeforeTo | IntentParsing.py:43 | regions Nunavut and Quebec for Canada give exactly `"Here are the best areas of Canadato visit: Nunavut, Quebec"` |
| IntentParsing.DestinationsReplyKeepsRepeats | IntentParsing.py:48-50 | a place reported as both region and city is listed twice, regions first |
| KnowledgeBase.HeaderListShape | KnowledgeBase.py:6 | `HEADER_LIST` has 14 distinct entries and contains none of Understand, Get_around or Sleep |
| KnowledgeBase.HeadersAreAnsweredIntents | KnowledgeBase.py:6 | every header is an intent name that `kb_intent_response` answers, and none is Understand |
| KnowledgeBase.WordCount | KnowledgeBase.py:17 | `len(re.findall(r'\w+', sent))` is at most the length of the sentence, and 0 exactly when the sentence has no word character |
| KnowledgeBase.WordCountOfRun | KnowledgeBase.py:17 | a non-empty run of word characters counts as one word |
| KnowledgeBase.WordCountSeparated | KnowledgeBase.py:17 | the `\w+` match counts of two texts joined by a non-word character add up |
| KnowledgeBase.RemoveFirst | KnowledgeBase.py:19 | `list.remove` shortens the list by one and removes exactly one copy of the value |
| KnowledgeBase.RemoveFirstCons | KnowledgeBase.py:19 | `remove` deletes the head when it equals the value, and otherwise removes from the tail |
| KnowledgeBase.ValidateSentenceLength | KnowledgeBase.py:8-20 | the list is changed in place into `Validated` of its old contents, and the same list object is returned |
| KnowledgeBase.LongSentences | KnowledgeBase.py:9-15 | the sentences of five or more words, in order: all long, a subsequence, every long sentence with its multiplicity, no short one |
| KnowledgeBase.Sweep | KnowledgeBase.py:16-19 | from iterator position i, the `for`/`remove` loop never lengthens the list and keeps every long sentence with its multiplicity |
| KnowledgeBase.RemoveShortKeepsLong | KnowledgeBase.py:17-19 | removing a short sentence leaves the long sentences unchanged |
| KnowledgeBase.RemoveFirstIsSubsequence | KnowledgeBase.py:19 | `remove` leaves a subsequence |
| KnowledgeBase.SweepIsSubsequence | KnowledgeBase.py:16-19 | from any iterator position, the loop only removes elements |
| KnowledgeBase.SweepKeepsLong | KnowledgeBase.py:16-19 | from any iterator position, the loop keeps every long sentence, in order |
| KnowledgeBase.ValidatedRemovesOnlyShort | KnowledgeBase.py:16-20 | the result is a subsequence of the input; each long sentence keeps its multiplicity; every removed copy was a sentence of fewer than 5 words |
| KnowledgeBase.SweepOfShortOnly | KnowledgeBase.py:16-19 | on short sentences only, from position i, `(n + i) / 2` sentences are left |
| KnowledgeBase.ValidatedOfShortOnly | KnowledgeBase.py:16-20 | on short sentences only, half of them (rounded down) survive, because every removal skips the next one |
| KnowledgeBase.ValidatedSkipsAfterRemoval | KnowledgeBase.py:16-19 | the list of two short sentences `[a, b]` becomes `[b]`: the second is never examined |
| KnowledgeBase.ValidatedOfEmpty | KnowledgeBase.py:16-20 | an empty list stays empty |
| PyBuiltins.Find | KnowledgeBase.py:32 | `str.find` returns -1 exactly when the character is absent, and otherwise the index of its first occurrence |
| PyBuiltins.Replace | KnowledgeBase.py:33 | `str.replace` of one character replaces every occurrence and nothing else |
| KnowledgeBase.CountrySlug | KnowledgeBase.py:32-33 | a name that starts with a space is kept as it is; any other name has every space turned into `_` and none left |
| KnowledgeBase.ScrapeUrl | KnowledgeBase.py:35 | the URL is `https://en.m.wikivoyage.org/wiki/` followed by the slug |
| KnowledgeBase.ScrapeUrlOfTwoWords | KnowledgeBase.py:32-35 | `"A B"` gives `.../wiki/A_B`, and `" A B"` gives `.../wiki/ A B` with its spaces kept |

## Left out

- webhook.py: the Flask route, Dialogflow sessions and per-user JSON files are I/O and global state. Its call to `kb_intent_response` passes five arguments where the function takes three, so it does not match `IntentParsing.py`.
- common_functions.py and chatbot.py: file and Dialogflow network I/O, and an interactive command-line loop.
- `scrape` beyond its URL (KnowledgeBase.py:38-72) is left out: the HTTP fetch, the BeautifulSoup section walk, the regex tag stripping and the upload of one document per header. It is network and HTML parsing.
- `create_document` and `create_knowledge_base` are left out: they are remote API calls.
- The inside of WordNet, locationtagger and `sent_tokenize` is left out: they are foreign libraries, and the model takes them as arbitrary functions.
- `wn.synset(name)` is an oracle that the model assumes resolves every listed name. The WordNetError that an unknown name raises is not modelled.
- `warnings.filterwarnings('ignore')` and the `__main__` demo only set global library configuration or print.
- PyBuiltins.Lower: lowercases the ASCII letters only. Python's `str.lower` also maps non-ASCII letters, and no Unicode case table is available here.
- KnowledgeBase.WordCount: `\w` is modelled as ASCII letters, digits and `_`. Python's `re` also counts non-ASCII letters and digits as word characters.
- PyBuiltins.IsSpace: covers the characters Python's `str.split()` treats as whitespace; it is written from Python's documented `isspace` set, not derived from a Unicode table.

## Findings

| source | as written | input that shows it | evidently intended | confidence | as-written member | corrected member |
|---|---|---|---|---|---|---|
| KnowledgeBase.py:16-19 | `sentences.remove(sent)` inside `for sent in sentences` shifts the list under the iterator, so the sentence after each removed one is never examined | `["Read on.", "See below."]` (two sentences of fewer than five words) leaves `["See below."]` | remove every sentence with fewer than five `\w+` words, as the docstring says | not executed | `KnowledgeBase.ValidatedSkipsAfterRemoval` | `KnowledgeBase.LongSentences` |

The model of `validate_sentence_length` itself stays the code as written (`KnowledgeBase.ValidateSentenceLength`), because nothing else in the model consumes its result. `KnowledgeBase.LongSentences` is the corrected behaviour. The lemmas `SweepKeepsLong` and `ValidatedRemovesOnlyShort` compare the code against it: the code keeps exactly the long sentences that `LongSentences` keeps, plus some short ones it skipped.
