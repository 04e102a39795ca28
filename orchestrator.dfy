/**
 * The `__main__` branch of main.py after the query: with data, print the
 * status, print the details, and notify when the status is AVAILABLE.
 */
module Orchestrator {
  import opened Wrappers
  import opened PyJson
  import opened Output
  import opened Schema
  import opened Availability
  import opened Notifier

  const NOTIFICATION_TEXT := "New housing rental objects are available."

  /**
   * Everything one run does: the lines it prints, the webhook messages it
   * posts, and the exception that ended it early, if any.
   */
  datatype RunOutcome = RunOutcome(lines: seq<Line>, posted: seq<Message>, crash: Option<PyError>)

  const QUIET := RunOutcome([], [], None)

  /**
   * The run for the value `query_graphql` returned: `None` after any
   * transport error, otherwise the decoded response.
   */
  function RunOf(fetched: Option<Json>, reply: WebhookReply): RunOutcome {
    if fetched.None? || !Truthy(fetched.value) then QUIET
    else
      var data := fetched.value;
      match CheckAvailability(data)
      case Failure(e) => RunOutcome([], [], Some(e))
      case Success(status) =>
        var details := AvailabilityDetails(data);
        var printed := [Text(status)] + details.lines;
        if details.crash.Some? then RunOutcome(printed, [], details.crash)
        else if status == AVAILABLE then
          var sent := SendNotification(NOTIFICATION_TEXT, reply);
          RunOutcome(printed + sent.lines, [sent.posted], None)
        else RunOutcome(printed, [], None)
  }

  /** The branch itself, step by step. */
  method Run(fetched: Option<Json>, reply: WebhookReply) returns (out: RunOutcome)
    ensures out == RunOf(fetched, reply)
  {
    out := QUIET;
    if fetched.None? || !Truthy(fetched.value) {
      return;
    }
    var data := fetched.value;
    var status := CheckAvailability(data);
    if status.Failure? {
      out := out.(crash := Some(status.error));
      return;
    }
    out := out.(lines := out.lines + [Text(status.value)]);
    var details := PrintAvailabilityDetails(data);
    out := out.(lines := out.lines + details.lines);
    if details.crash.Some? {
      out := out.(crash := details.crash);
      return;
    }
    if status.value == AVAILABLE {
      var sent := SendNotification(NOTIFICATION_TEXT, reply);
      out := out.(lines := out.lines + sent.lines, posted := out.posted + [sent.posted]);
    }
  }

  /** Without data nothing is printed, nothing is posted and nothing is raised. */
  lemma NoDataNoEffect(fetched: Option<Json>, reply: WebhookReply)
    requires fetched.None? || !Truthy(fetched.value)
    ensures RunOf(fetched, reply) == QUIET
  {
  }

  /** A response without the rental object list raises before anything is printed. */
  lemma MalformedResponseStopsRun(data: Json, reply: WebhookReply)
    requires Truthy(data) && RentalObjects(data).Failure?
    ensures RunOf(Some(data), reply) == RunOutcome([], [], Some(RentalObjects(data).error))
  {
  }

  /**
   * At most one message is posted; it is posted exactly when the status is
   * AVAILABLE and the details printed without raising; it is the fixed text
   * under the bot's name.
   */
  lemma AtMostOneNotification(fetched: Option<Json>, reply: WebhookReply)
    ensures |RunOf(fetched, reply).posted| <= 1
    ensures RunOf(fetched, reply).posted != [] <==>
              && fetched.Some? && Truthy(fetched.value)
              && CheckAvailability(fetched.value) == Success(AVAILABLE)
              && AvailabilityDetails(fetched.value).crash == None
    ensures RunOf(fetched, reply).posted != [] ==>
              RunOf(fetched, reply).posted[0] == Message("New housing rental objects are available.", "Housing Bot")
  {
  }

  /**
   * With data that has the list, the status line comes first, the detail
   * lines follow, and only a rejected notification adds one line after them.
   */
  lemma OutputOrder(data: Json, reply: WebhookReply)
    requires Truthy(data) && CheckAvailability(data).Success?
    ensures var out := RunOf(Some(data), reply);
            var details := AvailabilityDetails(data);
            && |out.lines| >= 1 + |details.lines|
            && out.lines[0] == Text(CheckAvailability(data).value)
            && out.lines[1..1 + |details.lines|] == details.lines
            && out.crash == details.crash
            && (out.posted == [] ==> |out.lines| == 1 + |details.lines|)
            && (|out.lines| > 1 + |details.lines| <==> out.posted != [] && reply.Rejected?)
  {
    var details := AvailabilityDetails(data);
    var printed := [Text(CheckAvailability(data).value)] + details.lines;
    assert printed[1..] == details.lines;
  }

  /**
   * A well-formed response listing `us`: the status follows list emptiness;
   * the fixed line for an empty list, otherwise the header and one line per
   * available unit in order; one notification exactly when `us` is non-empty.
   */
  lemma RunOfListedUnits(response: Json, js: seq<Json>, us: seq<RentalUnit>, reply: WebhookReply)
    requires RentalObjects(response) == Success(Arr(js)) && DescribesAll(js, us)
    ensures var out := RunOf(Some(response), reply);
            && out.crash == None
            && (us == [] ==> out == RunOutcome([Text(NONE_AVAILABLE), Text(NOTHING_AT_THE_MOMENT)], [], None))
            && (us != [] ==>
                  && out.posted == [Message(NOTIFICATION_TEXT, BOT_NAME)]
                  && |out.lines| == 2 + |AvailableIndices(us)| + (if reply.Rejected? then 1 else 0)
                  && out.lines[0] == Text(AVAILABLE)
                  && out.lines[1] == Text(HEADER)
                  && forall k :: 0 <= k < |AvailableIndices(us)| ==>
                       out.lines[k + 2] == UnitDetail(us[AvailableIndices(us)[k]]))
  {
    StatusOfListedObjects(response, js);
    DetailsOfListedUnits(response, js, us);
    assert "data" in response.fields;
  }

  /**
   * The rule main.py really applies: a non-empty list of units that are all
   * unavailable still gives status AVAILABLE, the header with no detail line,
   * and a notification.
   */
  lemma UnavailableUnitsStillNotify(response: Json, js: seq<Json>, us: seq<RentalUnit>, reply: WebhookReply)
    requires RentalObjects(response) == Success(Arr(js)) && DescribesAll(js, us)
    requires us != [] && forall i :: 0 <= i < |us| ==> !us[i].isAvailable
    ensures RunOf(Some(response), reply) ==
              RunOutcome([Text(AVAILABLE), Text(HEADER)] + SendNotification(NOTIFICATION_TEXT, reply).lines,
                         [Message(NOTIFICATION_TEXT, BOT_NAME)], None)
  {
    AllUnavailableOnlyHeader(response, js, us);
    assert "data" in response.fields;
  }
}
