/** Whole runs on concrete responses. */
module Scenarios {
  import opened Wrappers
  import opened PyJson
  import opened Output
  import opened Schema
  import opened Availability
  import opened Notifier
  import opened Orchestrator

  /** `{"data": {"housings": {"housingRentalObjects": objects}}}` */
  function ResponseListing(objects: seq<Json>): (response: Json)
    ensures RentalObjects(response) == Success(Arr(objects))
  {
    Obj(map["data" := Obj(map["housings" := Obj(map["housingRentalObjects" := Arr(objects)])])])
  }

  /** A response listing one available unit prints the header and that unit's line. */
  lemma SingleUnitDetails(u: RentalUnit)
    requires u.isAvailable
    ensures CheckAvailability(ResponseListing([Encode(u)])) == Success(AVAILABLE)
    ensures AvailabilityDetails(ResponseListing([Encode(u)])) == Printed([Text(HEADER), UnitDetail(u)], None)
    ensures Truthy(ResponseListing([Encode(u)]))
  {
    var j := Encode(u);
    DetailOfDescribed(j, u);
    assert [j][..0] == [];
    assert DetailLines([j]) == Printed([] + [UnitDetail(u)], None);
    assert [Text(HEADER)] + ([] + [UnitDetail(u)]) == [Text(HEADER), UnitDetail(u)];
    assert "data" in ResponseListing([j]).fields;
  }

  /** One available unit A1: status, header, its detail line, one notification. */
  lemma OneAvailableUnit()
    ensures var a1 := RentalUnit("A1", true, Some("2024-01-01"), Some("2024-02-01"), false);
            RunOf(Some(ResponseListing([Encode(a1)])), Accepted) ==
              RunOutcome(
                [Text(AVAILABLE), Text(HEADER), Detail(Str("A1"), Str("2024-01-01"), Str("2024-02-01"))],
                [Message(NOTIFICATION_TEXT, BOT_NAME)],
                None)
  {
    var a1 := RentalUnit("A1", true, Some("2024-01-01"), Some("2024-02-01"), false);
    SingleUnitDetails(a1);
  }

  /** An empty list: status NONE, the fixed line, no notification. */
  lemma EmptyList(reply: WebhookReply)
    ensures RunOf(Some(ResponseListing([])), reply) ==
              RunOutcome([Text(NONE_AVAILABLE), Text(NOTHING_AT_THE_MOMENT)], [], None)
  {
    RunOfListedUnits(ResponseListing([]), [], [], reply);
  }

  /** One unavailable unit: status AVAILABLE, the header alone, and still a notification. */
  lemma OneUnavailableUnit()
    ensures var b2 := RentalUnit("B2", false, None, None, true);
            RunOf(Some(ResponseListing([Encode(b2)])), Accepted) ==
              RunOutcome([Text(AVAILABLE), Text(HEADER)], [Message(NOTIFICATION_TEXT, BOT_NAME)], None)
  {
    var b2 := RentalUnit("B2", false, None, None, true);
    UnavailableUnitsStillNotify(ResponseListing([Encode(b2)]), [Encode(b2)], [b2], Accepted);
  }

  /** A rejected webhook call is reported after the details and the run still ends normally. */
  lemma RejectedNotification()
    ensures var a1 := RentalUnit("A1", true, None, None, false);
            RunOf(Some(ResponseListing([Encode(a1)])), Rejected("403 Forbidden")) ==
              RunOutcome(
                [Text(AVAILABLE), Text(HEADER), Detail(Str("A1"), Null, Null),
                 Text(FAILURE_PREFIX + "403 Forbidden")],
                [Message(NOTIFICATION_TEXT, BOT_NAME)],
                None)
  {
    var a1 := RentalUnit("A1", true, None, None, false);
    SingleUnitDetails(a1);
  }

  /** A GraphQL error body without `data` raises KeyError before any output. */
  lemma ErrorBodyWithoutData()
    ensures RunOf(Some(Obj(map["errors" := Arr([Str("bad input")])])), Accepted) ==
              RunOutcome([], [], Some(KeyError("data")))
  {
    var body := map["errors" := Arr([Str("bad input")])];
    assert "errors" in body && "data" !in body;
  }

  /** `{"data": null}` raises TypeError before any output. */
  lemma NullData()
    ensures RunOf(Some(Obj(map["data" := Null])), Accepted) == RunOutcome([], [], Some(TypeError))
  {
    assert "data" in map["data" := Null];
  }

  /** An empty body `{}` is falsy, so the run does nothing at all. */
  lemma EmptyBody()
    ensures RunOf(Some(Obj(map[])), Accepted) == QUIET
  {
  }

  /**
   * A unit without `isAvailable` after an available one: the first detail
   * line is printed, then KeyError ends the run and nothing is posted.
   */
  lemma MissingFlagMidList()
    ensures var a1 := RentalUnit("A1", true, None, None, false);
            var broken := Obj(map["rentalObjectId" := Str("C3")]);
            RunOf(Some(ResponseListing([Encode(a1), broken])), Accepted) ==
              RunOutcome([Text(AVAILABLE), Text(HEADER), Detail(Str("A1"), Null, Null)], [],
                         Some(KeyError("isAvailable")))
  {
    var a1 := RentalUnit("A1", true, None, None, false);
    var broken := Obj(map["rentalObjectId" := Str("C3")]);
    var list := [Encode(a1), broken];
    assert list[..1] == [Encode(a1)];
    assert [Encode(a1)][..0] == [];
    assert "isAvailable" !in broken.fields;
    assert DetailLines([Encode(a1)]) == Printed([Detail(Str("A1"), Null, Null)], None);
    assert DetailLines(list) == Printed([Detail(Str("A1"), Null, Null)], Some(KeyError("isAvailable")));
    assert "data" in ResponseListing(list).fields;
  }
}
