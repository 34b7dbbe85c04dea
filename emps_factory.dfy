/**
 * The UI's view of an employee: the Oracle JET model built by the employee factory
 * keeps exactly employeeId, firstName and lastName out of whatever object the
 * service sends back when a record is fetched (parse), puts exactly those three
 * into the payload it sends when a record is saved (parseSave), and identifies a
 * record by its employeeId.
 */
module EmpsFactory {
  import opened Wrappers
  import Json

  /** A response object as the model receives it: field name to JSON value. */
  type Response = map<string, Json.Value>

  /** The attribute the model uses as its identity (`idAttribute`). */
  const IdAttribute: string := "employeeId"

  /** The three attributes the projections copy. */
  const Projected: set<string> := {"employeeId", "firstName", "lastName"}

  /** The object literal parse builds; None stands for JavaScript's `undefined`. */
  datatype Emp = Emp(employeeId: Option<Json.Value>, firstName: Option<Json.Value>,
                     lastName: Option<Json.Value>)

  /** `response[name]`: the field's value, or undefined when the object lacks it. */
  function Field(response: Response, name: string): (v: Option<Json.Value>)
    ensures v.Some? <==> name in response
    ensures v.Some? ==> v.value == response[name]
  {
    if name in response then Some(response[name]) else None
  }

  /**
   * The projected record as an object: its defined attributes only (an undefined
   * attribute is not part of the object once it is serialised as JSON).
   */
  function AsResponse(e: Emp): (r: Response)
    ensures r.Keys <= Projected
  {
    var withId := if e.employeeId.Some? then map[IdAttribute := e.employeeId.value] else map[];
    var withFirst := if e.firstName.Some? then withId["firstName" := e.firstName.value] else withId;
    if e.lastName.Some? then withFirst["lastName" := e.lastName.value] else withFirst
  }

  /**
   * The fetch-side projection (`parse`): as an object, its result is the response
   * restricted to employeeId, firstName and lastName, with the same values.
   */
  function Parse(response: Response): (e: Emp)
    ensures AsResponse(e).Keys == response.Keys * Projected
    ensures forall f :: f in AsResponse(e) ==> AsResponse(e)[f] == response[f]
  {
    Emp(Field(response, "employeeId"), Field(response, "firstName"), Field(response, "lastName"))
  }

  /**
   * The save-side projection (`parseSave`), written out separately as the factory
   * does: the payload keeps exactly the three attributes of the record, unchanged.
   */
  function ParseSave(response: Response): (e: Emp)
    ensures AsResponse(e).Keys == response.Keys * Projected
    ensures forall f :: f in AsResponse(e) ==> AsResponse(e)[f] == response[f]
  {
    Emp(Field(response, "employeeId"), Field(response, "firstName"), Field(response, "lastName"))
  }

  /** The identity of a model: the value of its idAttribute. */
  function Id(e: Emp): (id: Option<Json.Value>)
    ensures id == e.employeeId
  {
    Field(AsResponse(e), IdAttribute)
  }

  /** Reading an object back recovers the record it was made from. */
  lemma ParseAsResponse(e: Emp)
    ensures Parse(AsResponse(e)) == e
  {
  }

  /** Every attribute other than the three is dropped. */
  lemma ParseDropsOthers(response: Response, f: string)
    requires f !in Projected
    ensures f !in AsResponse(Parse(response))
  {
  }

  /** parseSave and parse agree on every response. */
  lemma ParseSaveIsParse(response: Response)
    ensures ParseSave(response) == Parse(response)
  {
  }

  /** Projecting twice is projecting once. */
  lemma ParseIdempotent(response: Response)
    ensures Parse(AsResponse(Parse(response))) == Parse(response)
  {
    ParseAsResponse(Parse(response));
  }

  /** The identity of a parsed model is the response's own employeeId field. */
  lemma IdIsEmployeeId(response: Response)
    ensures Id(Parse(response)) == Field(response, "employeeId")
  {
  }
}
