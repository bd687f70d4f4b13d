/** The entity-to-location scorer of impromptu.js (compareAndScoreLocations).

    Every location of an ordered lexicon is scored by counting how many of its
    keywords occur, as exact strings, among the detected entities; the scorer
    keeps a running best that it replaces only on a strictly greater score, and
    reports "no location" with score 0 when nothing scores above 0.

    The specification is given twice: as a left fold over the lexicon
    (ScoreLocations, the shape of the source's loop) and declaratively as the
    first maximum (IsFirstBest); the two are proved to coincide, and the loop
    (CompareAndScoreLocations) is proved against the fold. */
module LocationScoring {

  datatype Option<+T> = None | Some(value: T)

  /** One entry of the lexicon: a location name and its keywords. */
  datatype Location = Location(name: string, keywords: seq<string>)

  /** The lexicon, in the order in which the scorer visits it. */
  type Lexicon = seq<Location>

  /** What the scorer returns: `location` is None where the source returns null. */
  datatype ScoreResult = ScoreResult(location: Option<string>, score: nat)

  /** The scorer's state before any location is visited. */
  const NO_MATCH: ScoreResult := ScoreResult(None, 0)

  // ---------------------------------------------------------------------------
  // Specification functions
  // ---------------------------------------------------------------------------

  /** Number of positions of `keywords` whose keyword is an element of `entities`,
      counted from the left as the source's forEach does. */
  function KeywordScore(keywords: seq<string>, entities: seq<string>): (n: nat)
    ensures n <= |keywords|
  {
    if |keywords| == 0 then 0
    else
      KeywordScore(keywords[..|keywords| - 1], entities)
        + (if keywords[|keywords| - 1] in entities then 1 else 0)
  }

  function LocationScore(loc: Location, entities: seq<string>): nat {
    KeywordScore(loc.keywords, entities)
  }

  /** One iteration of the scorer's outer loop: the running best after visiting `loc`. */
  function Consider(best: ScoreResult, loc: Location, entities: seq<string>): ScoreResult {
    var score := LocationScore(loc, entities);
    if score > best.score then ScoreResult(Some(loc.name), score) else best
  }

  /** The scorer's result on `lexicon`: the running best after visiting every
      location in order, starting from NO_MATCH. */
  function ScoreLocations(lexicon: Lexicon, entities: seq<string>): (r: ScoreResult)
    ensures r.location.None? <==> r.score == 0
  {
    if |lexicon| == 0 then NO_MATCH
    else Consider(ScoreLocations(lexicon[..|lexicon| - 1], entities), lexicon[|lexicon| - 1], entities)
  }

  /** Length of the longest keyword list of the lexicon (0 for an empty lexicon). */
  function MaxKeywordCount(lexicon: Lexicon): (m: nat)
    ensures forall j :: 0 <= j < |lexicon| ==> |lexicon[j].keywords| <= m
    ensures |lexicon| == 0 ==> m == 0
    ensures |lexicon| > 0 ==> exists j :: 0 <= j < |lexicon| && |lexicon[j].keywords| == m
  {
    if |lexicon| == 0 then 0
    else
      var rest := MaxKeywordCount(lexicon[..|lexicon| - 1]);
      var last := |lexicon[|lexicon| - 1].keywords|;
      if last > rest then last else rest
  }

  /** Object keys are unique, so a lexicon read from an object has distinct names. */
  ghost predicate UniqueNames(lexicon: Lexicon) {
    forall i, j :: 0 <= i < j < |lexicon| ==> lexicon[i].name != lexicon[j].name
  }

  // ---------------------------------------------------------------------------
  // Declarative specification: the first location of maximal positive score
  // ---------------------------------------------------------------------------

  /** `r` names location `i`, carries its score, and every earlier location scores less. */
  ghost predicate FirstAt(lexicon: Lexicon, entities: seq<string>, i: int, r: ScoreResult) {
    && 0 <= i < |lexicon|
    && r.location == Some(lexicon[i].name)
    && LocationScore(lexicon[i], entities) == r.score
    && forall j :: 0 <= j < i ==> LocationScore(lexicon[j], entities) < r.score
  }

  /** `r.score` bounds every location's score; a zero score means no location; a
      positive score is attained, and `r` names its first occurrence. */
  ghost predicate IsFirstBest(lexicon: Lexicon, entities: seq<string>, r: ScoreResult) {
    && (forall j :: 0 <= j < |lexicon| ==> LocationScore(lexicon[j], entities) <= r.score)
    && (r.score == 0 ==> r.location == None)
    && (r.score > 0 ==> exists i :: FirstAt(lexicon, entities, i, r))
  }

  // ---------------------------------------------------------------------------
  // The scorer itself
  // ---------------------------------------------------------------------------

  /** compareAndScoreLocations with the lexicon as a parameter: an outer loop over
      the locations, an inner loop counting the keywords found in `entities`, and
      a strictly-greater update of the running best. */
  method CompareAndScoreLocations(lexicon: Lexicon, entities: seq<string>) returns (r: ScoreResult)
    ensures r == ScoreLocations(lexicon, entities)
    ensures IsFirstBest(lexicon, entities, r)
  {
    var bestMatch: Option<string> := None;
    var highestScore: nat := 0;
    var i := 0;
    while i < |lexicon|
      invariant 0 <= i <= |lexicon|
      invariant ScoreResult(bestMatch, highestScore) == ScoreLocations(lexicon[..i], entities)
    {
      var location, keywords := lexicon[i].name, lexicon[i].keywords;
      var score: nat := 0;
      var k := 0;
      while k < |keywords|
        invariant 0 <= k <= |keywords|
        invariant score == KeywordScore(keywords[..k], entities)
      {
        assert keywords[..k + 1][..k] == keywords[..k];
        if keywords[k] in entities {
          score := score + 1;
        }
        k := k + 1;
      }
      assert keywords[..k] == keywords;
      if score > highestScore {
        highestScore := score;
        bestMatch := Some(location);
      }
      assert lexicon[..i + 1][..i] == lexicon[..i];
      i := i + 1;
    }
    assert lexicon[..i] == lexicon;
    r := ScoreResult(bestMatch, highestScore);
    ScoreLocationsIsFirstBest(lexicon, entities);
  }

  // ---------------------------------------------------------------------------
  // Properties of a single location's score
  // ---------------------------------------------------------------------------

  /** The positions of the first `n` keywords that occur in `entities`. */
  ghost function MatchedPositions(keywords: seq<string>, entities: seq<string>, n: nat): set<nat>
    requires n <= |keywords|
  {
    set k: nat | k < n && keywords[k] in entities
  }

  /** Reference definition of the count: the score is the number of keyword
      positions whose keyword occurs in `entities`. */
  lemma {:induction false} KeywordScoreCountsMatchedPositions(keywords: seq<string>, entities: seq<string>)
    ensures KeywordScore(keywords, entities) == |MatchedPositions(keywords, entities, |keywords|)|
  {
    if |keywords| > 0 {
      var n := |keywords| - 1;
      var prefix := keywords[..n];
      KeywordScoreCountsMatchedPositions(prefix, entities);
      assert MatchedPositions(prefix, entities, n) == MatchedPositions(keywords, entities, n);
      var extra: set<nat> := if keywords[n] in entities then {n} else {};
      assert MatchedPositions(keywords, entities, n + 1) == MatchedPositions(keywords, entities, n) + extra;
      assert n !in MatchedPositions(keywords, entities, n);
    }
  }

  /** A location scores 0 exactly when none of its keywords occurs in `entities`. */
  lemma {:induction false} KeywordScoreZeroIff(keywords: seq<string>, entities: seq<string>)
    ensures KeywordScore(keywords, entities) == 0
        <==> forall k :: 0 <= k < |keywords| ==> keywords[k] !in entities
  {
    if |keywords| > 0 {
      var n := |keywords| - 1;
      KeywordScoreZeroIff(keywords[..n], entities);
      assert forall k :: 0 <= k < n ==> keywords[..n][k] == keywords[k];
    }
  }

  /** A location scores the length of its keyword list exactly when every one of
      its keywords occurs in `entities`. */
  lemma {:induction false} KeywordScoreFullIff(keywords: seq<string>, entities: seq<string>)
    ensures KeywordScore(keywords, entities) == |keywords|
        <==> forall k :: 0 <= k < |keywords| ==> keywords[k] in entities
  {
    if |keywords| > 0 {
      var n := |keywords| - 1;
      KeywordScoreFullIff(keywords[..n], entities);
      assert forall k :: 0 <= k < n ==> keywords[..n][k] == keywords[k];
    }
  }

  /** Only membership is consulted: entity lists with the same elements give the
      same score, whatever their order and multiplicities. */
  lemma {:induction false} KeywordScoreDependsOnlyOnPresence(keywords: seq<string>, e1: seq<string>, e2: seq<string>)
    requires forall x :: x in e1 <==> x in e2
    ensures KeywordScore(keywords, e1) == KeywordScore(keywords, e2)
  {
    if |keywords| > 0 {
      KeywordScoreDependsOnlyOnPresence(keywords[..|keywords| - 1], e1, e2);
    }
  }

  // ---------------------------------------------------------------------------
  // Properties of the scorer's result
  // ---------------------------------------------------------------------------

  /** The left fold meets the declarative specification: it returns the first
      location of maximal positive score, or no location with score 0. */
  lemma {:induction false} ScoreLocationsIsFirstBest(lexicon: Lexicon, entities: seq<string>)
    ensures IsFirstBest(lexicon, entities, ScoreLocations(lexicon, entities))
  {
    if |lexicon| > 0 {
      var n := |lexicon| - 1;
      var prefix := lexicon[..n];
      var best := ScoreLocations(prefix, entities);
      ScoreLocationsIsFirstBest(prefix, entities);
      assert forall j :: 0 <= j < n ==> prefix[j] == lexicon[j];
      var r := ScoreLocations(lexicon, entities);
      if LocationScore(lexicon[n], entities) > best.score {
        assert FirstAt(lexicon, entities, n, r);
      } else if best.score > 0 {
        var i :| FirstAt(prefix, entities, i, best);
        assert FirstAt(lexicon, entities, i, r);
      }
    }
  }

  /** The declarative specification admits one result only, so it determines the
      scorer completely. */
  lemma FirstBestIsUnique(lexicon: Lexicon, entities: seq<string>, r1: ScoreResult, r2: ScoreResult)
    requires IsFirstBest(lexicon, entities, r1)
    requires IsFirstBest(lexicon, entities, r2)
    ensures r1 == r2
  {
    if r1.score > 0 {
      var i1 :| FirstAt(lexicon, entities, i1, r1);
      assert r1.score <= r2.score;
    }
    if r2.score > 0 {
      var i2 :| FirstAt(lexicon, entities, i2, r2);
      assert r2.score <= r1.score;
    }
    if r1.score > 0 {
      var i1 :| FirstAt(lexicon, entities, i1, r1);
      var i2 :| FirstAt(lexicon, entities, i2, r2);
      assert i1 == i2;
    }
  }

  /** The returned score is the maximum of 0 and every location's score. */
  lemma {:induction false} ScoreIsMaximum(lexicon: Lexicon, entities: seq<string>)
    ensures var r := ScoreLocations(lexicon, entities);
      && (forall j :: 0 <= j < |lexicon| ==> LocationScore(lexicon[j], entities) <= r.score)
      && (r.score == 0 || exists j :: 0 <= j < |lexicon| && LocationScore(lexicon[j], entities) == r.score)
  {
    ScoreLocationsIsFirstBest(lexicon, entities);
  }

  /** The returned score never exceeds the longest keyword list. */
  lemma {:induction false} ScoreBounded(lexicon: Lexicon, entities: seq<string>)
    ensures ScoreLocations(lexicon, entities).score <= MaxKeywordCount(lexicon)
  {
    var r := ScoreLocations(lexicon, entities);
    ScoreLocationsIsFirstBest(lexicon, entities);
    if r.score > 0 {
      var i :| FirstAt(lexicon, entities, i, r);
    }
  }

  /** When the result names a location, that location's own score is the
      returned score. */
  lemma WinnerScoreMatches(lexicon: Lexicon, entities: seq<string>, i: nat)
    requires UniqueNames(lexicon)
    requires i < |lexicon|
    requires ScoreLocations(lexicon, entities).location == Some(lexicon[i].name)
    ensures LocationScore(lexicon[i], entities) == ScoreLocations(lexicon, entities).score > 0
  {
    var r := ScoreLocations(lexicon, entities);
    ScoreLocationsIsFirstBest(lexicon, entities);
    var w :| FirstAt(lexicon, entities, w, r);
    assert lexicon[w].name == lexicon[i].name;
    assert w == i;
  }

  /** Tie-break: of two locations that share the maximal score, the later one is
      never returned. */
  lemma TieGoesToFirst(lexicon: Lexicon, entities: seq<string>, i: nat, j: nat)
    requires UniqueNames(lexicon)
    requires i < j < |lexicon|
    requires LocationScore(lexicon[i], entities) == LocationScore(lexicon[j], entities)
    ensures ScoreLocations(lexicon, entities).location != Some(lexicon[j].name)
  {
    var r := ScoreLocations(lexicon, entities);
    ScoreLocationsIsFirstBest(lexicon, entities);
    if r.score > 0 {
      var w :| FirstAt(lexicon, entities, w, r);
      assert w != j;
      assert lexicon[w].name != lexicon[j].name;
    }
  }

  /** The first location of maximal positive score is the one returned. */
  lemma FirstMaximumWins(lexicon: Lexicon, entities: seq<string>, i: nat)
    requires i < |lexicon|
    requires LocationScore(lexicon[i], entities) > 0
    requires forall j :: 0 <= j < i ==> LocationScore(lexicon[j], entities) < LocationScore(lexicon[i], entities)
    requires forall j :: i < j < |lexicon| ==> LocationScore(lexicon[j], entities) <= LocationScore(lexicon[i], entities)
    ensures ScoreLocations(lexicon, entities)
         == ScoreResult(Some(lexicon[i].name), LocationScore(lexicon[i], entities))
  {
    var r := ScoreResult(Some(lexicon[i].name), LocationScore(lexicon[i], entities));
    assert FirstAt(lexicon, entities, i, r);
    ScoreLocationsIsFirstBest(lexicon, entities);
    FirstBestIsUnique(lexicon, entities, r, ScoreLocations(lexicon, entities));
  }

  /** No location is found exactly when no keyword of any location occurs in `entities`. */
  lemma NoMatchIff(lexicon: Lexicon, entities: seq<string>)
    ensures ScoreLocations(lexicon, entities) == NO_MATCH
        <==> forall j, k :: 0 <= j < |lexicon| && 0 <= k < |lexicon[j].keywords| ==> lexicon[j].keywords[k] !in entities
  {
    ScoreIsMaximum(lexicon, entities);
    forall j | 0 <= j < |lexicon| {
      KeywordScoreZeroIff(lexicon[j].keywords, entities);
    }
  }

  /** An empty entity list finds no location. */
  lemma EmptyEntitiesFindNothing(lexicon: Lexicon)
    ensures ScoreLocations(lexicon, []) == NO_MATCH
  {
    NoMatchIff(lexicon, []);
  }

  /** A location all of whose (non-empty) keywords are present wins with the full
      count when no keyword of any other location is present. */
  lemma SoleFullMatchWins(lexicon: Lexicon, entities: seq<string>, i: nat)
    requires i < |lexicon| && |lexicon[i].keywords| > 0
    requires forall k :: 0 <= k < |lexicon[i].keywords| ==> lexicon[i].keywords[k] in entities
    requires forall j, k :: 0 <= j < |lexicon| && j != i && 0 <= k < |lexicon[j].keywords|
               ==> lexicon[j].keywords[k] !in entities
    ensures ScoreLocations(lexicon, entities) == ScoreResult(Some(lexicon[i].name), |lexicon[i].keywords|)
  {
    KeywordScoreFullIff(lexicon[i].keywords, entities);
    forall j | 0 <= j < |lexicon| && j != i
      ensures LocationScore(lexicon[j], entities) == 0
    {
      KeywordScoreZeroIff(lexicon[j].keywords, entities);
    }
    FirstMaximumWins(lexicon, entities, i);
  }

  /** The result depends only on which strings are present in `entities`. */
  lemma {:induction false} ScoreDependsOnlyOnPresence(lexicon: Lexicon, e1: seq<string>, e2: seq<string>)
    requires forall x :: x in e1 <==> x in e2
    ensures ScoreLocations(lexicon, e1) == ScoreLocations(lexicon, e2)
  {
    if |lexicon| > 0 {
      ScoreDependsOnlyOnPresence(lexicon[..|lexicon| - 1], e1, e2);
      KeywordScoreDependsOnlyOnPresence(lexicon[|lexicon| - 1].keywords, e1, e2);
    }
  }

  /** Reordering the entities does not change the result. */
  lemma ScoreIgnoresOrder(lexicon: Lexicon, e1: seq<string>, e2: seq<string>)
    requires multiset(e1) == multiset(e2)
    ensures ScoreLocations(lexicon, e1) == ScoreLocations(lexicon, e2)
  {
    forall x
      ensures x in e1 <==> x in e2
    {
      assert x in e1 <==> x in multiset(e1);
      assert x in e2 <==> x in multiset(e2);
    }
    ScoreDependsOnlyOnPresence(lexicon, e1, e2);
  }

  /** Repeating an entity that is already present does not change the result. */
  lemma ScoreIgnoresRepeats(lexicon: Lexicon, entities: seq<string>, x: string)
    requires x in entities
    ensures ScoreLocations(lexicon, entities + [x]) == ScoreLocations(lexicon, entities)
  {
    ScoreDependsOnlyOnPresence(lexicon, entities + [x], entities);
  }
}
