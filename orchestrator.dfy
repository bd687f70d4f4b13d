/** The decision logic of `main` in impromptu.js: concatenate the three
    annotation lists, score them, and either request prices for the winning
    location or report that no valid location was detected.

    The remote calls are parameters: the outcome of analyseMedia (None when it
    throws) and the outcomes of fetchFlightPrices and fetchHotelPrices for a
    destination (None when they throw), and whether displayHotelPrices returns
    on a hotel payload (it throws, for one, on a null payload or where there is
    no page). Logging is not modelled; the run records which price requests
    were issued and how it ended. */
module Orchestrator {
  import opened LocationScoring
  import KnownLocations

  /** The three string lists analyseMedia extracts from an annotation result. */
  datatype Annotations = Annotations(objects: seq<string>, labels: seq<string>, texts: seq<string>)

  /** A price request issued to a remote endpoint. */
  datatype Request = FlightPrices(destination: string) | HotelPrices(destination: string)

  /** How a run of `main` ends. */
  datatype Outcome<Q> =
    | Failed                                   // an exception reached main's catch
    | NoValidLocation                          // the best score was 0
    | Displayed(location: string, score: nat, flights: Q, hotels: Q)

  /** The price requests issued, in order, and how the run ended. */
  datatype Run<Q> = Run(requests: seq<Request>, outcome: Outcome<Q>)

  /** The entity list handed to the scorer: objects, then labels, then texts. */
  function DetectedEntities(a: Annotations): (e: seq<string>)
    ensures |e| == |a.objects| + |a.labels| + |a.texts|
    ensures e[..|a.objects|] == a.objects
    ensures e[|a.objects|..|a.objects| + |a.labels|] == a.labels
    ensures e[|a.objects| + |a.labels|..] == a.texts
    ensures forall x :: x in e <==> x in a.objects || x in a.labels || x in a.texts
  {
    a.objects + a.labels + a.texts
  }

  /** The scorer's verdict on one annotation result. */
  function Verdict(lexicon: Lexicon, a: Annotations): ScoreResult {
    ScoreLocations(lexicon, DetectedEntities(a))
  }

  /** One run of `main`: prices are requested for the winner exactly when its
      score is positive, flights first and hotels only after flights succeed;
      the hotel prices are then displayed, and the run ends in Displayed only
      when that display returns. */
  function MainFlow<Q>(
    lexicon: Lexicon,
    analysis: Option<Annotations>,
    fetchFlights: string -> Option<Q>,
    fetchHotels: string -> Option<Q>,
    displays: Q -> bool
  ): (run: Run<Q>)
    ensures run.requests != [] <==> analysis.Some? && Verdict(lexicon, analysis.value).score > 0
    ensures run.outcome.NoValidLocation? <==> analysis.Some? && Verdict(lexicon, analysis.value).score == 0
    ensures analysis.None? ==> run == Run([], Failed)
    ensures analysis.Some? && Verdict(lexicon, analysis.value).score > 0 ==>
      var v := Verdict(lexicon, analysis.value);
      var dest := v.location.value;
      && run.requests[0] == FlightPrices(dest)
      && run.requests == (if fetchFlights(dest).Some? then [FlightPrices(dest), HotelPrices(dest)] else [FlightPrices(dest)])
      && (run.outcome.Displayed? <==>
            fetchFlights(dest).Some? && fetchHotels(dest).Some? && displays(fetchHotels(dest).value))
      && (!run.outcome.Displayed? ==> run.outcome == Failed)
      && (run.outcome.Displayed? ==>
            run.outcome == Displayed(dest, v.score, fetchFlights(dest).value, fetchHotels(dest).value))
  {
    match analysis
    case None => Run([], Failed)
    case Some(a) =>
      var verdict := Verdict(lexicon, a);
      if verdict.score > 0 then
        var location := verdict.location.value;
        match fetchFlights(location)
        case None => Run([FlightPrices(location)], Failed)
        case Some(flights) =>
          match fetchHotels(location)
          case None => Run([FlightPrices(location), HotelPrices(location)], Failed)
          case Some(hotels) =>
            var requests := [FlightPrices(location), HotelPrices(location)];
            if displays(hotels) then Run(requests, Displayed(location, verdict.score, flights, hotels))
            else Run(requests, Failed)
      else
        Run([], NoValidLocation)
  }

  /** Which list an entity was detected in does not matter: any rearrangement of
      the three lists' contents between one another gives the same verdict. */
  lemma VerdictIgnoresRoles(lexicon: Lexicon, a: Annotations, b: Annotations)
    requires multiset(a.objects) + multiset(a.labels) + multiset(a.texts)
          == multiset(b.objects) + multiset(b.labels) + multiset(b.texts)
    ensures Verdict(lexicon, a) == Verdict(lexicon, b)
  {
    var ea, eb := DetectedEntities(a), DetectedEntities(b);
    assert multiset(ea) == multiset(a.objects) + multiset(a.labels) + multiset(a.texts);
    assert multiset(eb) == multiset(b.objects) + multiset(b.labels) + multiset(b.texts);
    ScoreIgnoresOrder(lexicon, ea, eb);
  }

  /** An annotation result with no entities reports no valid location and
      requests no prices. */
  lemma NothingDetectedRequestsNothing<Q>(
    lexicon: Lexicon, fetchFlights: string -> Option<Q>, fetchHotels: string -> Option<Q>, displays: Q -> bool)
    ensures MainFlow(lexicon, Some(Annotations([], [], [])), fetchFlights, fetchHotels, displays) == Run([], NoValidLocation)
  {
    assert DetectedEntities(Annotations([], [], [])) == [];
    EmptyEntitiesFindNothing(lexicon);
  }

  /** With the built-in table, a clip showing the Eiffel Tower, the Louvre, the
      Seine, a "Paris" caption and the Statue of Liberty requests Paris prices. */
  lemma ParisClipRequestsParisPrices<Q>(fetchFlights: string -> Option<Q>, fetchHotels: string -> Option<Q>, displays: Q -> bool)
    ensures var a := Annotations(["Eiffel Tower"], ["Louvre", "Seine"], ["Paris", "Statue of Liberty"]);
      var run := MainFlow(KnownLocations.TABLE, Some(a), fetchFlights, fetchHotels, displays);
      && run.requests[0] == FlightPrices("Paris")
      && (fetchFlights("Paris").Some? && fetchHotels("Paris").Some? && displays(fetchHotels("Paris").value) ==>
            run.outcome == Displayed("Paris", 4, fetchFlights("Paris").value, fetchHotels("Paris").value))
  {
    var a := Annotations(["Eiffel Tower"], ["Louvre", "Seine"], ["Paris", "Statue of Liberty"]);
    assert DetectedEntities(a) == ["Eiffel Tower", "Louvre", "Seine", "Paris", "Statue of Liberty"];
    KnownLocations.ParisExample();
  }
}
