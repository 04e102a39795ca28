/** What the script writes to standard output. */
module Output {
  import opened Wrappers
  import opened PyJson

  /**
   * One printed line: either a fixed or computed text, or the detail line of
   * one rental object, kept as the three values it interpolates.
   */
  datatype Line =
    | Text(text: string)
    | Detail(rentalObjectId: Json, availableFrom: Json, availableTo: Json)

  /** The lines a piece of the script printed, and the exception that stopped it, if any. */
  datatype Printed = Printed(lines: seq<Line>, crash: Option<PyError>)
}
