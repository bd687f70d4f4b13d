/** The lexicon that impromptu.js hard-codes inside compareAndScoreLocations,
    and the scorer applied to it. */
module KnownLocations {
  import opened LocationScoring

  /** The object literal's entries, in insertion order; neither name is an
      integer-like key, so this is also the order in which they are visited. */
  const TABLE: Lexicon := [
    Location("Paris", ["Eiffel Tower", "Louvre", "Seine", "Paris"]),
    Location("New York", ["Statue of Liberty", "Central Park", "Times Square", "New York"])
  ]

  function ParisScore(entities: seq<string>): nat {
    LocationScore(TABLE[0], entities)
  }

  function NewYorkScore(entities: seq<string>): nat {
    LocationScore(TABLE[1], entities)
  }

  /** compareAndScoreLocations as the source declares it: one argument, the
      fixed table. Paris wins any positive tie because it comes first. */
  method CompareAndScoreKnownLocations(entities: seq<string>) returns (r: ScoreResult)
    ensures r == ScoreLocations(TABLE, entities)
    ensures r.score <= 4
    ensures r.location == Some("Paris") <==> ParisScore(entities) > 0 && ParisScore(entities) >= NewYorkScore(entities)
    ensures r.location == Some("New York") <==> NewYorkScore(entities) > ParisScore(entities)
    ensures r.location == None <==> ParisScore(entities) == 0 && NewYorkScore(entities) == 0
  {
    r := CompareAndScoreLocations(TABLE, entities);
    ScoreBounded(TABLE, entities);
    assert TABLE[..1] == [TABLE[0]];
    assert ScoreLocations(TABLE[..1], entities).score == ParisScore(entities);
  }

  /** The worked example: Paris matches four keywords, New York one, and Paris
      is returned with score 4. */
  lemma ParisExample()
    ensures var entities := ["Eiffel Tower", "Louvre", "Seine", "Paris", "Statue of Liberty"];
      && ParisScore(entities) == 4
      && NewYorkScore(entities) == 1
      && ScoreLocations(TABLE, entities) == ScoreResult(Some("Paris"), 4)
  {
    var entities := ["Eiffel Tower", "Louvre", "Seine", "Paris", "Statue of Liberty"];
    KeywordScoreFullIff(TABLE[0].keywords, entities);
    assert "Eiffel Tower" == entities[0] && "Louvre" == entities[1];
    assert "Seine" == entities[2] && "Paris" == entities[3];
    assert ParisScore(entities) == 4;
    KeywordScoreCountsMatchedPositions(TABLE[1].keywords, entities);
    assert "Statue of Liberty" == entities[4];
    assert MatchedPositions(TABLE[1].keywords, entities, 4) == {0};
    assert NewYorkScore(entities) == 1;
    FirstMaximumWins(TABLE, entities, 0);
  }
}
