/** What the views receive from, and send to, the complaints service: the raw
    complaint record, the two accepted shapes of a list response, and the
    effects a view asks of the query library. */
module ComplaintsApi {
  import opened Js

  /** A complaint as the service sends it. `complaintType` is the record's
      `type` property; `attachmentUrls` the `url` of each entry of
      `attachments`, when that property is present. */
  datatype RawComplaint = RawComplaint(
    id: string,
    complaintId: JsStr,
    title: JsStr,
    complaintType: JsStr,
    description: JsStr,
    area: JsStr,
    landmark: JsStr,
    address: JsStr,
    priority: JsStr,
    status: JsStr,
    deadline: Option<int>,
    assignedOn: JsStr,
    submittedOn: JsStr,
    resolvedOn: JsStr,
    attachmentUrls: Option<seq<JsStr>>,
    latitude: Option<real>,
    longitude: Option<real>)

  /** The `data` property of a list response, as far as `Array.isArray` tells
      its shapes apart: an array of complaints; an object whose `complaints`
      property is an array (`Some`) or is not (`None`); or anything else,
      including `undefined` and `null`. */
  datatype Data =
    | ListData(items: seq<RawComplaint>)
    | PageData(complaints: Option<seq<RawComplaint>>)
    | OtherData

  datatype Response = Response(data: Data)

  /** The complaint list of a response that may not have arrived yet: the
      nested `data.complaints` array if there is one, else the top-level `data`
      array, else the empty list. */
  function Complaints(resp: Option<Response>): (cs: seq<RawComplaint>)
    ensures resp.None? ==> cs == []
    ensures resp.Some? && resp.value.data.PageData? && resp.value.data.complaints.Some? ==>
              cs == resp.value.data.complaints.value
    ensures resp.Some? && resp.value.data.ListData? ==> cs == resp.value.data.items
    ensures cs != [] ==> resp.Some? && !resp.value.data.OtherData?
  {
    if resp.None? then []
    else match resp.value.data
      case PageData(Some(items)) => items
      case ListData(items) => items
      case _ => []
  }

  /** Both accepted shapes carrying the same array normalise to the same list,
      in the same order. */
  lemma ShapesAgree(items: seq<RawComplaint>)
    ensures Complaints(Some(Response(PageData(Some(items))))) == items
    ensures Complaints(Some(Response(ListData(items)))) == items
  {
  }

  /** An unrecognised shape is an empty list, never an error. */
  lemma UnknownShapeIsEmpty(resp: Option<Response>)
    requires resp.None? || resp.value.data.OtherData? || resp.value.data == PageData(None)
    ensures Complaints(resp) == []
  {
  }

  datatype Outcome = Succeeded | Failed

  /** What a handler asks of the query library, in order. */
  datatype Effect =
    | UpdateStatus(id: string, status: string, remarks: Option<string>)
    | Refetch
    | NotifyComplaintUpdate
}
