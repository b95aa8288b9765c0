/** The image search helper: the keyword string a topic is reduced to,
    the request sent for it, what the reply yields, and the choice of one
    image with a fall-back search. The network itself is left out: the
    outcome of each request is a parameter. */
module Pixabay {
  import opened Wrappers
  import opened Strings
  import opened Chance
  import opened Sequences

  /** Words too common to help an image search. */
  const GenericTerms: seq<string> := [
    "professional", "presentation", "slide", "corporate", "business",
    "technical", "report", "document", "paper", "research", "academic",
    "conference", "thesis", "dissertation", "study", "analysis",
    "the", "a", "an", "and", "or", "but", "in", "on", "at", "to",
    "for", "of", "with", "by", "from", "as", "is", "was", "are", "were"]

  /** At most this many words are kept. */
  const MaxKeywords: nat := 8

  /** Appended to every keyword string. */
  const KeywordSuffix: string := " technology"

  /** The search query is cut to this many characters. */
  const MaxQueryLength: nat := 100

  /** Searched when a topic finds no image. */
  const FallbackTopic: string := "technology business"

  /** The number of results asked for by `getRandomImage`. */
  const ImagesPerSearch: nat := 10

  /** A word survives the filter when its JavaScript length (in UTF-16
      code units) is more than three and it is not a generic term. */
  predicate Kept(word: string, generic: seq<string>) {
    Utf16Length(word) > 3 && word !in generic
  }

  /** For words within the Basic Multilingual Plane the length test is the
      number of characters; a character outside it counts twice, so a
      three-character word such as "ab" followed by an emoji is kept. */
  lemma KeptLength(word: string, generic: seq<string>)
    ensures (forall i :: 0 <= i < |word| ==> word[i] as int < 0x1_0000) ==>
      (Kept(word, generic) <==> |word| > 3 && word !in generic)
    ensures word == "ab\U{1F600}" && word !in generic ==> Kept(word, generic)
  {
    if forall i :: 0 <= i < |word| ==> word[i] as int < 0x1_0000 {
      Utf16LengthBmp(word);
    }
    if word == "ab\U{1F600}" {
      var tail := word[2..];
      assert tail == ['\U{1F600}'] && tail[1..] == [];
      assert Utf16Length(tail) == 2;
      assert word[1..][1..] == tail;
    }
  }

  /** `words.filter(...)` with the list of generic terms as a parameter. */
  function FilterKept(words: seq<string>, generic: seq<string>): (r: seq<string>)
    ensures |r| <= |words|
  {
    if words == [] then []
    else (if Kept(words[0], generic) then [words[0]] else []) + FilterKept(words[1..], generic)
  }

  /** `xs.slice(0, n)`. */
  function Take(xs: seq<string>, n: nat): (r: seq<string>)
    ensures |r| == if |xs| < n then |xs| else n
    ensures r <= xs
  {
    if |xs| < n then xs else xs[..n]
  }

  /** The words of the topic that make up its keywords, in topic order,
      for a given list of generic terms. */
  function KeptWords(topic: string, generic: seq<string>): seq<string> {
    Take(FilterKept(SplitWs(ToLower(topic)), generic), MaxKeywords)
  }

  /** The keyword pipeline for a given list of generic terms. The lemmas
      below hold for every such list, the one `extractKeywords` uses among
      them. */
  function Keywords(topic: string, generic: seq<string>): (r: string)
    ensures |r| >= |KeywordSuffix| && r[|r| - |KeywordSuffix|..] == KeywordSuffix
  {
    var r := Join(KeptWords(topic, generic), " ") + KeywordSuffix;
    assert r[|r| - |KeywordSuffix|..] == KeywordSuffix;
    r
  }

  /** `extractKeywords(topic)`. */
  function ExtractKeywords(topic: string): (r: string)
    ensures |r| >= |KeywordSuffix| && r[|r| - |KeywordSuffix|..] == KeywordSuffix
  {
    Keywords(topic, GenericTerms)
  }

  /** `keywords.substring(0, 100)`. */
  function Truncate(s: string, n: nat): (r: string)
    ensures r <= s
    ensures |r| == if |s| < n then |s| else n
  {
    if |s| < n then s else s[..n]
  }

  function SearchQuery(topic: string): (q: string)
    ensures q <= ExtractKeywords(topic) && |q| <= MaxQueryLength
    ensures |q| == if |ExtractKeywords(topic)| < MaxQueryLength then |ExtractKeywords(topic)| else MaxQueryLength
    ensures |ExtractKeywords(topic)| <= MaxQueryLength ==> q == ExtractKeywords(topic)
  {
    Truncate(ExtractKeywords(topic), MaxQueryLength)
  }

  // ---------------------------------------------------------------------
  // Properties of the keyword string.
  // ---------------------------------------------------------------------

  /** The filter keeps exactly the words that pass it. */
  lemma {:induction false} FilterKeptMembers(words: seq<string>, generic: seq<string>)
    ensures forall w :: w in FilterKept(words, generic) <==> w in words && Kept(w, generic)
  {
    if words != [] {
      FilterKeptMembers(words[1..], generic);
      assert words == [words[0]] + words[1..];
    }
  }

  /** `sub` is `xs` with some elements left out, the rest in their order. */
  predicate IsSubsequence(sub: seq<string>, xs: seq<string>)
    decreases |xs|
  {
    sub == [] || (xs != [] && ((sub[0] == xs[0] && IsSubsequence(sub[1..], xs[1..])) || IsSubsequence(sub, xs[1..])))
  }

  /** The filter keeps the surviving words in their relative order. */
  lemma {:induction false} FilterKeptOrder(words: seq<string>, generic: seq<string>)
    ensures IsSubsequence(FilterKept(words, generic), words)
  {
    if words != [] {
      FilterKeptOrder(words[1..], generic);
      var rest := FilterKept(words[1..], generic);
      if Kept(words[0], generic) {
        assert FilterKept(words, generic) == [words[0]] + rest;
        assert FilterKept(words, generic)[1..] == rest;
      } else {
        assert FilterKept(words, generic) == rest;
      }
    }
  }

  /** A prefix of a subsequence is a subsequence. */
  lemma {:induction false} PrefixOfSubsequence(p: seq<string>, sub: seq<string>, xs: seq<string>)
    requires p <= sub && IsSubsequence(sub, xs)
    ensures IsSubsequence(p, xs)
    decreases |xs|
  {
    if p != [] {
      assert sub != [] && xs != [];
      if sub[0] == xs[0] && IsSubsequence(sub[1..], xs[1..]) {
        assert p[1..] <= sub[1..];
        PrefixOfSubsequence(p[1..], sub[1..], xs[1..]);
      } else {
        PrefixOfSubsequence(p, sub, xs[1..]);
      }
    }
  }

  /** Every piece of a lower-case string is lower case. */
  lemma {:induction false} SplitWsLower(s: string)
    requires IsLowerCase(s)
    ensures forall p :: p in SplitWs(s) ==> IsLowerCase(p)
    decreases |s|
  {
    if s != [] {
      if IsSpace(s[0]) {
        var t := TrimStart(s[1..]);
        assert t == s[1..][LeadCount(s[1..])..];
        SplitWsLower(t);
        assert SplitWs(s) == [[]] + SplitWs(t);
      } else {
        var rest := SplitWs(s[1..]);
        SplitWsLower(s[1..]);
        assert rest[0] in rest;
        assert SplitWs(s) == [[s[0]] + rest[0]] + rest[1..];
        forall p | p in SplitWs(s) ensures IsLowerCase(p) {
          if p != [s[0]] + rest[0] {
            assert p in rest;
          }
        }
      }
    }
  }

  /** Every kept word is lower case, longer than three UTF-16 units, not a
      generic term and free of white space; at most eight are kept, in the
      order the topic has them. */
  lemma KeptWordsSpec(topic: string, generic: seq<string>)
    ensures |KeptWords(topic, generic)| <= MaxKeywords
    ensures forall w :: w in KeptWords(topic, generic) ==>
      IsLowerCase(w) && Utf16Length(w) > 3 && w !in generic && NoSpace(w)
    ensures IsSubsequence(KeptWords(topic, generic), SplitWs(ToLower(topic)))
  {
    var words := SplitWs(ToLower(topic));
    var kept := FilterKept(words, generic);
    FilterKeptMembers(words, generic);
    FilterKeptOrder(words, generic);
    SplitWsLower(ToLower(topic));
    PrefixOfSubsequence(KeptWords(topic, generic), kept, words);
    forall w | w in KeptWords(topic, generic)
      ensures IsLowerCase(w) && Utf16Length(w) > 3 && w !in generic && NoSpace(w)
    {
      assert w in kept;
      var i :| 0 <= i < |words| && words[i] == w;
    }
  }

  /** A list of words none of which passes the filter filters to nothing. */
  lemma {:induction false} FilterKeptNone(words: seq<string>, generic: seq<string>)
    requires forall w :: w in words ==> !Kept(w, generic)
    ensures FilterKept(words, generic) == []
  {
    if words != [] {
      assert words[0] in words;
      FilterKeptNone(words[1..], generic);
    }
  }

  /** When no word survives, the keyword string is the suffix alone. */
  lemma NothingKept(topic: string, generic: seq<string>)
    requires forall w :: w in SplitWs(ToLower(topic)) ==> !Kept(w, generic)
    ensures Keywords(topic, generic) == KeywordSuffix
  {
    FilterKeptNone(SplitWs(ToLower(topic)), generic);
    assert [] + KeywordSuffix == KeywordSuffix;
  }

  /** The kept words can be read back from the keyword string: splitting
      what comes before the suffix on white space gives them again. */
  lemma KeywordsReadBack(topic: string, generic: seq<string>)
    requires KeptWords(topic, generic) != []
    ensures var k := Keywords(topic, generic);
      SplitWs(k[..|k| - |KeywordSuffix|]) == KeptWords(topic, generic)
  {
    KeptWordsShape(topic, generic);
    JoinedReadBack(KeptWords(topic, generic));
  }

  /** Non-empty words free of white space, joined with single spaces and
      followed by the suffix, split back into themselves once the suffix is
      cut off. */
  lemma JoinedReadBack(words: seq<string>)
    requires words != []
    requires forall w :: w in words ==> w != [] && NoSpace(w)
    ensures var k := Join(words, " ") + KeywordSuffix;
      SplitWs(k[..|k| - |KeywordSuffix|]) == words
  {
    WholeWords(words);
    SplitWsJoin(words);
    PrefixOfConcat(Join(words, " "), KeywordSuffix);
  }

  /** The part of `KeptWordsSpec` that makes the words readable back. */
  lemma KeptWordsShape(topic: string, generic: seq<string>)
    ensures forall w :: w in KeptWords(topic, generic) ==> w != [] && NoSpace(w)
  {
    var words := SplitWs(ToLower(topic));
    FilterKeptLong(words, generic);
    forall w | w in KeptWords(topic, generic) ensures w != [] && NoSpace(w) {
      var i :| 0 <= i < |KeptWords(topic, generic)| && KeptWords(topic, generic)[i] == w;
      assert w in FilterKept(words, generic);
    }
  }

  /** Every word the filter keeps is a word of its input longer than three
      UTF-16 units. */
  lemma {:induction false} FilterKeptLong(words: seq<string>, generic: seq<string>)
    ensures forall w :: w in FilterKept(words, generic) ==> w in words && Utf16Length(w) > 3
  {
    if words != [] {
      FilterKeptLong(words[1..], generic);
    }
  }

  /** Words that are each non-empty and free of white space are, index by
      index, non-empty and free of white space. */
  lemma WholeWords(words: seq<string>)
    requires forall w :: w in words ==> w != [] && NoSpace(w)
    ensures forall i :: 0 <= i < |words| ==> words[i] != [] && NoSpace(words[i])
  {
    forall i | 0 <= i < |words| ensures words[i] != [] && NoSpace(words[i]) {
      assert words[i] in words;
    }
  }

  // ---------------------------------------------------------------------
  // The search request and its result.
  // ---------------------------------------------------------------------

  datatype PixabayImage = PixabayImage(
    id: int,
    pageURL: string,
    imageType: string,
    tags: string,
    previewURL: string,
    webformatURL: string,
    largeImageURL: string,
    imageWidth: int,
    imageHeight: int,
    user: string)

  /** The query parameters of a search request, in the order they are
      appended to the URL. */
  datatype SearchParams = SearchParams(
    key: string,
    q: string,
    imageType: string,
    perPage: string,
    safeSearch: string)

  /** How the request went: it threw (network failure, unreadable body), or
      a response came back with its `ok` flag, status text and `hits`. */
  datatype FetchOutcome =
    | Thrown
    | Responded(ok: bool, statusText: string, hits: Option<seq<PixabayImage>>)

  /** The request `searchImages` sends, or none when no key is configured. */
  function SearchRequest(apiKey: string, query: string, perPage: nat): (r: Option<SearchParams>)
    ensures r.None? <==> apiKey == ""
    ensures r.Some? ==>
      (r.value.key == apiKey && r.value.q == SearchQuery(query)
       && r.value.imageType == "photo" && r.value.perPage == NatToString(perPage)
       && r.value.safeSearch == "true")
  {
    if apiKey == "" then None
    else Some(SearchParams(apiKey, SearchQuery(query), "photo", NatToString(perPage), "true"))
  }

  /** `searchImages`: the images of a successful reply; nothing when no key
      is configured, the request throws, the status is not ok, or the reply
      has no `hits`. */
  function SearchImages(apiKey: string, outcome: FetchOutcome): (images: seq<PixabayImage>)
    ensures apiKey == "" ==> images == []
    ensures outcome.Thrown? || (outcome.Responded? && !outcome.ok) ==> images == []
    ensures apiKey != "" && outcome.Responded? && outcome.ok ==> images == outcome.hits.GetOr([])
  {
    if apiKey == "" then []
    else match outcome
      case Thrown => []
      case Responded(ok, _, hits) => if !ok then [] else hits.GetOr([])
  }

  /** `getRandomImage`: a random image of the topic's results, or, when
      there are none, of the fall-back search's; none when both are empty.
      `r` stands for `Math.random()`. */
  function GetRandomImage(apiKey: string, primary: FetchOutcome, fallback: FetchOutcome, r: real): (image: Option<PixabayImage>)
    requires 0.0 <= r < 1.0
    ensures var images := SearchImages(apiKey, primary);
      var fallbackImages := SearchImages(apiKey, fallback);
      && (image.None? <==> images == [] && fallbackImages == [])
      && (images != [] ==> image.Some? && image.value in images)
      && (images == [] && image.Some? ==> image.value in fallbackImages)
  {
    var images := SearchImages(apiKey, primary);
    if |images| == 0 then
      var fallbackImages := SearchImages(apiKey, fallback);
      if |fallbackImages| == 0 then None
      else Some(fallbackImages[RandomIndex(r, |fallbackImages|)])
    else Some(images[RandomIndex(r, |images|)])
  }

  /** The searches `getRandomImage` makes, in order: the topic's, then the
      fall-back topic's only when the first yields nothing; each asks for
      ten images (`None` stands for a search that sends no request). */
  function RandomImageSearches(apiKey: string, topic: string, primary: FetchOutcome): (searches: seq<Option<SearchParams>>)
    ensures 1 <= |searches| <= 2
    ensures searches[0] == SearchRequest(apiKey, topic, ImagesPerSearch)
    ensures |searches| == 2 <==> SearchImages(apiKey, primary) == []
    ensures |searches| == 2 ==> searches[1] == SearchRequest(apiKey, FallbackTopic, ImagesPerSearch)
  {
    var first := SearchRequest(apiKey, topic, ImagesPerSearch);
    if SearchImages(apiKey, primary) == [] then [first, SearchRequest(apiKey, FallbackTopic, ImagesPerSearch)]
    else [first]
  }
}
