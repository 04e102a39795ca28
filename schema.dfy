/**
 * The shape the GraphQL query asks the server for: each element of
 * `housingRentalObjects` carries an id, an availability flag, two nullable
 * timestamps and a reservation flag.
 */
module Schema {
  import opened Wrappers
  import opened PyJson

  datatype RentalUnit = RentalUnit(
    rentalObjectId: string,
    isAvailable: bool,
    availableFrom: Option<string>,
    availableTo: Option<string>,
    hasActiveReservation: bool)

  /** A nullable string field as JSON. */
  function NullableText(t: Option<string>): Json {
    match t
    case None => Null
    case Some(s) => Str(s)
  }

  /**
   * `j` is a JSON object holding the fields of `u`; further fields (such as
   * `__typename`) are allowed. `hasActiveReservation` is required because the
   * query selects it, not because the detail loop reads it: the loop never does.
   */
  predicate Describes(j: Json, u: RentalUnit) {
    && j.Obj?
    && "rentalObjectId" in j.fields && j.fields["rentalObjectId"] == Str(u.rentalObjectId)
    && "isAvailable" in j.fields && j.fields["isAvailable"] == Bool(u.isAvailable)
    && "availableFrom" in j.fields && j.fields["availableFrom"] == NullableText(u.availableFrom)
    && "availableTo" in j.fields && j.fields["availableTo"] == NullableText(u.availableTo)
    && "hasActiveReservation" in j.fields && j.fields["hasActiveReservation"] == Bool(u.hasActiveReservation)
  }

  predicate DescribesAll(js: seq<Json>, us: seq<RentalUnit>) {
    |js| == |us| && forall i :: 0 <= i < |js| ==> Describes(js[i], us[i])
  }

  /** A JSON object for `u` holding the five fields the model reads (the query also selects `__typename`). */
  function Encode(u: RentalUnit): (j: Json)
    ensures Describes(j, u)
  {
    Obj(map[
      "rentalObjectId" := Str(u.rentalObjectId),
      "isAvailable" := Bool(u.isAvailable),
      "availableFrom" := NullableText(u.availableFrom),
      "availableTo" := NullableText(u.availableTo),
      "hasActiveReservation" := Bool(u.hasActiveReservation)])
  }

  /**
   * The positions of the available units, in increasing order: exactly the
   * positions whose flag is set, each once.
   */
  function AvailableIndices(us: seq<RentalUnit>): (idx: seq<nat>)
    ensures forall k :: 0 <= k < |idx| ==> idx[k] < |us| && us[idx[k]].isAvailable
    ensures forall k, l :: 0 <= k < l < |idx| ==> idx[k] < idx[l]
    ensures forall i :: 0 <= i < |us| && us[i].isAvailable ==> i in idx
    decreases |us|
  {
    if us == [] then []
    else
      var n := |us| - 1;
      AvailableIndices(us[..n]) + (if us[n].isAvailable then [n] else [])
  }

  /** With every flag clear there is no available position. */
  lemma {:induction false} NoneAvailable(us: seq<RentalUnit>)
    requires forall i :: 0 <= i < |us| ==> !us[i].isAvailable
    ensures AvailableIndices(us) == []
    decreases |us|
  {
    if us != [] {
      var n := |us| - 1;
      assert forall i :: 0 <= i < n ==> us[..n][i] == us[i];
      NoneAvailable(us[..n]);
    }
  }
}
