/**
 * The availability engine of main.py: `check_availability`, which classifies
 * a decoded response, and `print_availability_details`, which prints one line
 * per available rental object.
 */
module Availability {
  import opened Wrappers
  import opened PyJson
  import opened Output
  import opened Schema

  const AVAILABLE := "HOUSING_RENTAL_OBJECTS_AVAILABLE"
  const NONE_AVAILABLE := "NO_HOUSING_RENTAL_OBJECTS_AVAILABLE"
  const HEADER := "Available apartments:"
  const NOTHING_AT_THE_MOMENT := "No available housing rental objects at the moment."

  /** `response_data["data"]["housings"]["housingRentalObjects"]`, failing as Python does. */
  function RentalObjects(response: Json): Result<Json, PyError> {
    var data :- Subscript(response, "data");
    var housings :- Subscript(data, "housings");
    Subscript(housings, "housingRentalObjects")
  }

  /**
   * `check_availability`: one of the two status strings, chosen by the truth
   * value of the rental object list alone, or the exception its lookup raises.
   */
  function CheckAvailability(response: Json): (status: Result<string, PyError>)
    ensures status.Failure? <==> RentalObjects(response).Failure?
    ensures status.Failure? ==> status.error == RentalObjects(response).error
    ensures status.Success? ==> status.value == AVAILABLE || status.value == NONE_AVAILABLE
  {
    var objects :- RentalObjects(response);
    Success(if Truthy(objects) then AVAILABLE else NONE_AVAILABLE)
  }

  /** The f-string of the detail line: three lookups, the first missing key raises. */
  function FormatDetail(apartment: Json): Result<Line, PyError> {
    var id :- Subscript(apartment, "rentalObjectId");
    var from :- Subscript(apartment, "availableFrom");
    var to :- Subscript(apartment, "availableTo");
    Success(Detail(id, from, to))
  }

  /** The detail line one loop iteration prints for `apartment`, if any. */
  function DetailOf(apartment: Json): Result<Option<Line>, PyError> {
    var flag :- Subscript(apartment, "isAvailable");
    if Truthy(flag) then
      var line :- FormatDetail(apartment);
      Success(Some(line))
    else
      Success(None)
  }

  /**
   * What the loop prints for `apartments`: the detail lines in order, up to
   * the first element whose lookups raise, and that exception.
   */
  function DetailLines(apartments: seq<Json>): (p: Printed)
    ensures |p.lines| <= |apartments|
    ensures forall k :: 0 <= k < |p.lines| ==> p.lines[k].Detail?
    decreases |apartments|
  {
    if apartments == [] then Printed([], None)
    else
      var n := |apartments| - 1;
      var before := DetailLines(apartments[..n]);
      if before.crash.Some? then before
      else
        match DetailOf(apartments[n])
        case Failure(e) => Printed(before.lines, Some(e))
        case Success(None) => before
        case Success(Some(line)) => Printed(before.lines + [line], None)
  }

  /** `print_availability_details` as a function of the decoded response. */
  function AvailabilityDetails(response: Json): Printed {
    match RentalObjects(response)
    case Failure(e) => Printed([], Some(e))
    case Success(objects) =>
      if !Truthy(objects) then Printed([Text(NOTHING_AT_THE_MOMENT)], None)
      else if objects.Arr? then
        var details := DetailLines(objects.elems);
        Printed([Text(HEADER)] + details.lines, details.crash)
      else
        // A truthy string, dict, number or boolean: iterating it either fails
        // outright or yields strings, and a string subscripted by a string raises.
        Printed([Text(HEADER)], Some(TypeError))
  }

  /** Once an element has raised, later elements print nothing. */
  lemma {:induction false} CrashIsFinal(apartments: seq<Json>, rest: seq<Json>)
    requires DetailLines(apartments).crash.Some?
    ensures DetailLines(apartments + rest) == DetailLines(apartments)
    decreases |rest|
  {
    if rest == [] {
      assert apartments + rest == apartments;
    } else {
      var all := apartments + rest;
      var m := |rest| - 1;
      assert all[..|all| - 1] == apartments + rest[..m];
      CrashIsFinal(apartments, rest[..m]);
    }
  }

  /** `print_availability_details`: prints as it walks the list. */
  method PrintAvailabilityDetails(response: Json) returns (out: Printed)
    ensures out == AvailabilityDetails(response)
  {
    var objects := RentalObjects(response);
    if objects.Failure? {
      return Printed([], Some(objects.error));
    }
    var apartments := objects.value;
    if !Truthy(apartments) {
      return Printed([Text(NOTHING_AT_THE_MOMENT)], None);
    }
    var lines := [Text(HEADER)];
    if !apartments.Arr? {
      return Printed(lines, Some(TypeError));
    }
    var list := apartments.elems;
    var i := 0;
    while i < |list|
      invariant 0 <= i <= |list|
      invariant |lines| >= 1 && lines[0] == Text(HEADER)
      invariant DetailLines(list[..i]) == Printed(lines[1..], None)
    {
      assert list[..i + 1][..i] == list[..i];
      var flag := Subscript(list[i], "isAvailable");
      if flag.Failure? {
        CrashIsFinal(list[..i + 1], list[i + 1..]);
        assert list[..i + 1] + list[i + 1..] == list;
        return Printed(lines, Some(flag.error));
      }
      if Truthy(flag.value) {
        var line := FormatDetail(list[i]);
        if line.Failure? {
          CrashIsFinal(list[..i + 1], list[i + 1..]);
          assert list[..i + 1] + list[i + 1..] == list;
          return Printed(lines, Some(line.error));
        }
        lines := lines + [line.value];
      }
      i := i + 1;
    }
    assert list[..i] == list;
    out := Printed(lines, None);
  }

  // Properties of responses that follow the queried schema.

  /** The detail line printed for an available unit: its id and its two timestamps. */
  function UnitDetail(u: RentalUnit): Line {
    Detail(Str(u.rentalObjectId), NullableText(u.availableFrom), NullableText(u.availableTo))
  }

  /** One well-formed unit: a detail line exactly when its flag is set. */
  lemma DetailOfDescribed(j: Json, u: RentalUnit)
    requires Describes(j, u)
    ensures DetailOf(j) == Success(if u.isAvailable then Some(UnitDetail(u)) else None)
  {
  }

  /**
   * For well-formed units the loop never raises, and its k-th line is the
   * detail line of the k-th available unit: one line per available unit, in
   * input order, and none for an unavailable one.
   */
  lemma {:induction false} DetailLinesOfUnits(js: seq<Json>, us: seq<RentalUnit>)
    requires DescribesAll(js, us)
    ensures DetailLines(js).crash == None
    ensures |DetailLines(js).lines| == |AvailableIndices(us)|
    ensures forall k :: 0 <= k < |AvailableIndices(us)| ==>
              DetailLines(js).lines[k] == UnitDetail(us[AvailableIndices(us)[k]])
    decreases |js|
  {
    if js != [] {
      var n := |js| - 1;
      assert DescribesAll(js[..n], us[..n]) by {
        forall i | 0 <= i < n ensures Describes(js[..n][i], us[..n][i]) {
          assert js[..n][i] == js[i] && us[..n][i] == us[i];
        }
      }
      DetailLinesOfUnits(js[..n], us[..n]);
      DetailOfDescribed(js[n], us[n]);
      var before := AvailableIndices(us[..n]);
      forall k | 0 <= k < |before| ensures us[..n][before[k]] == us[before[k]] {
      }
    }
  }

  /** Status of a response that lists `js`: AVAILABLE exactly when the list is non-empty, whatever the flags. */
  lemma StatusOfListedObjects(response: Json, js: seq<Json>)
    requires RentalObjects(response) == Success(Arr(js))
    ensures CheckAvailability(response) == Success(AVAILABLE) <==> js != []
    ensures CheckAvailability(response) == Success(NONE_AVAILABLE) <==> js == []
  {
  }

  /**
   * Details of a response that lists the units `us`: the fixed line for none;
   * otherwise the header and then one line per available unit, in order.
   */
  lemma DetailsOfListedUnits(response: Json, js: seq<Json>, us: seq<RentalUnit>)
    requires RentalObjects(response) == Success(Arr(js)) && DescribesAll(js, us)
    ensures us == [] ==> AvailabilityDetails(response) == Printed([Text(NOTHING_AT_THE_MOMENT)], None)
    ensures us != [] ==>
              var p := AvailabilityDetails(response);
              && p.crash == None
              && |p.lines| == 1 + |AvailableIndices(us)|
              && p.lines[0] == Text(HEADER)
              && forall k :: 0 <= k < |AvailableIndices(us)| ==>
                   p.lines[k + 1] == UnitDetail(us[AvailableIndices(us)[k]])
  {
    DetailLinesOfUnits(js, us);
  }

  /** A non-empty list of unavailable units prints the header and nothing else. */
  lemma AllUnavailableOnlyHeader(response: Json, js: seq<Json>, us: seq<RentalUnit>)
    requires RentalObjects(response) == Success(Arr(js)) && DescribesAll(js, us)
    requires us != [] && forall i :: 0 <= i < |us| ==> !us[i].isAvailable
    ensures CheckAvailability(response) == Success(AVAILABLE)
    ensures AvailabilityDetails(response) == Printed([Text(HEADER)], None)
  {
    StatusOfListedObjects(response, js);
    DetailsOfListedUnits(response, js, us);
    NoneAvailable(us);
  }

  /**
   * The two functions agree on every response: both raise the same exception
   * on a response without the list, the header is printed exactly when the
   * status is AVAILABLE, and the fixed line exactly when it is not.
   */
  lemma DetailsAgreeWithStatus(response: Json)
    ensures CheckAvailability(response).Failure? <==> AvailabilityDetails(response).lines == []
    ensures CheckAvailability(response).Failure? ==>
              AvailabilityDetails(response).crash == Some(CheckAvailability(response).error)
    ensures CheckAvailability(response) == Success(AVAILABLE) <==>
              AvailabilityDetails(response).lines != [] && AvailabilityDetails(response).lines[0] == Text(HEADER)
    ensures CheckAvailability(response) == Success(NONE_AVAILABLE) <==>
              AvailabilityDetails(response) == Printed([Text(NOTHING_AT_THE_MOMENT)], None)
  {
  }
}
