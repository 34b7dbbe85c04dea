/**
 * The UI and the service together: a view record the UI saves with PUT and then
 * fetches again with GET comes back with the same projection, because the body it
 * sends is a JSON object and objects always pass the get handler's truthiness test.
 */
module RoundTrip {
  import opened Wrappers
  import Json
  import Emps
  import EmpsFactory

  /** The body the UI sends when saving a view record. */
  function SaveBody(response: EmpsFactory.Response): (body: Json.Value)
    ensures body.Obj? && body.fields.Keys <= EmpsFactory.Projected
  {
    Json.Obj(EmpsFactory.AsResponse(EmpsFactory.ParseSave(response)))
  }

  /** Save then fetch under the same id yields the very body saved, and parses to the same view. */
  lemma SaveThenFetch(m: Emps.Employees, id: string, response: EmpsFactory.Response)
    ensures var body := SaveBody(response);
            && Emps.Find(Emps.Stored(m, id, body), id) == Some(body)
            && EmpsFactory.Parse(body.fields) == EmpsFactory.Parse(response)
  {
    var body := SaveBody(response);
    Json.ObjectsAreTruthy(body.fields);
    Emps.FindAfterStored(m, id, body);
    EmpsFactory.ParseSaveIsParse(response);
    EmpsFactory.ParseIdempotent(response);
  }
}
