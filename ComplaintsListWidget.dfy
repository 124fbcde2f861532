/** The complaints-list card: it queries the first page of complaints for the
    given filters, shows an error, a skeleton, an empty-state hint or a table
    of labelled rows, and keeps the update modal's state. */
module ComplaintsListWidget {
  import opened Js
  import opened Ui
  import opened ComplaintsApi

  /** A value of the `filters` prop, as far as its emptiness test needs. */
  datatype FilterValue =
    | Unset
    | NullValue
    | BoolValue(b: bool)
    | NumValue(n: real)
    | StrValue(s: string)
    | ArrayValue(items: seq<FilterValue>)
    | ObjectValue

  /** `{ ...filters, page: 1, limit: 50 }`: the first page of fifty, whatever
      paging the caller passed; every other filter passes through. */
  function QueryArgs(filters: map<string, FilterValue>): (args: map<string, FilterValue>)
    ensures args.Keys == filters.Keys + {"page", "limit"}
    ensures args["page"] == NumValue(1.0) && args["limit"] == NumValue(50.0)
    ensures forall k :: k in filters && k != "page" && k != "limit" ==> args[k] == filters[k]
  {
    filters["page" := NumValue(1.0)]["limit" := NumValue(50.0)]
  }

  /** The caller's own `page` and `limit`, present or not, never reach the
      query. */
  lemma QueryArgsOverridePaging(filters: map<string, FilterValue>, page: FilterValue, limit: FilterValue)
    ensures QueryArgs(filters["page" := page]["limit" := limit]) == QueryArgs(filters)
    ensures QueryArgs(filters - {"page", "limit"}) == QueryArgs(filters)
  {
    var a, b := QueryArgs(filters["page" := page]["limit" := limit]), QueryArgs(filters);
    assert a.Keys == b.Keys;
    assert forall k :: k in a ==> a[k] == b[k];
    var c := QueryArgs(filters - {"page", "limit"});
    assert c.Keys == b.Keys;
    assert forall k :: k in c ==> c[k] == b[k];
  }

  /** A filter counts as active unless it is undefined, null, "" or []; so 0
      and false are active. */
  predicate IsActive(v: FilterValue)
  {
    !(v.Unset? || v.NullValue? || v == StrValue("") || v == ArrayValue([]))
  }

  /** `hasFilters`: some key of `filters` holds an active value. */
  predicate HasFilters(filters: map<string, FilterValue>)
  {
    exists k :: k in filters && IsActive(filters[k])
  }

  /** Adding or removing an inactive entry never changes `hasFilters`, while a
      single 0 or false is enough to make it true. */
  lemma HasFiltersIgnoresInactive(filters: map<string, FilterValue>, key: string, v: FilterValue)
    ensures !IsActive(v) ==> (HasFilters(filters[key := v]) <==> HasFilters(filters - {key}))
    ensures HasFilters(map[key := NumValue(0.0)]) && HasFilters(map[key := BoolValue(false)])
    ensures !HasFilters(map[])
  {
    var m0 := map[key := NumValue(0.0)];
    assert IsActive(m0[key]);
    var m1 := map[key := BoolValue(false)];
    assert IsActive(m1[key]);
    if !IsActive(v) {
      var with, without := filters[key := v], filters - {key};
      if HasFilters(with) {
        var k :| k in with && IsActive(with[k]);
        assert k != key && k in without && without[k] == with[k];
      }
      if HasFilters(without) {
        var k :| k in without && IsActive(without[k]);
        assert k in with && with[k] == without[k];
      }
    }
  }

  // ---------------------------------------------------------------- row labels and badges

  /** `#` followed by the complaint's reference code, or by the last six
      characters of its id when it has none. */
  function DisplayId(c: RawComplaint): (r: string)
    ensures |r| >= 1 && r[0] == '#'
    ensures Truthy(c.complaintId) ==> r[1..] == c.complaintId.s
    ensures !Truthy(c.complaintId) ==>
              |r| - 1 == (if |c.id| < 6 then |c.id| else 6) && r[1..] == c.id[|c.id| - (|r| - 1)..]
  {
    "#" + (if Truthy(c.complaintId) then c.complaintId.s else SliceLast(c.id, 6))
  }

  /** `v?.replace("_", " ") || fallback`: the first underscore, and only the
      first, becomes a space; a missing or empty value shows the fallback. */
  function UnderscoreLabel(v: JsStr, fallback: string): (r: string)
    ensures !Truthy(v) ==> r == fallback
    ensures Truthy(v) ==> |r| == |v.s|
    ensures Truthy(v) ==> forall j :: 0 <= j < |r| ==>
              r[j] == (if j == FirstIndexOf(v.s, '_') then ' ' else v.s[j])
  {
    if v.Str? && ReplaceFirst(v.s, '_', ' ') != "" then ReplaceFirst(v.s, '_', ' ') else fallback
  }

  /** The first underscore becomes a space and any later one survives. */
  lemma OnlyFirstUnderscoreReplaced(v: JsStr, fallback: string, i: nat, j: nat)
    requires v.Str? && i < j < |v.s| && v.s[i] == '_' && v.s[j] == '_'
    ensures UnderscoreLabel(v, fallback)[j] == '_'
    ensures FirstIndexOf(v.s, '_') <= i && UnderscoreLabel(v, fallback)[FirstIndexOf(v.s, '_')] == ' '
  {
  }

  /** For instance, IN_PROGRESS is labelled "IN PROGRESS". */
  lemma InProgressLabel()
    ensures UnderscoreLabel(Str("IN_PROGRESS"), "Unknown") == "IN PROGRESS"
  {
    var s := "IN_PROGRESS";
    assert s[0] != '_' && s[1] != '_' && s[2] == '_';
    var i := FirstIndexOf(s, '_');
    assert i == 2;
    var r := UnderscoreLabel(Str(s), "Unknown");
    assert forall j :: 0 <= j < |r| ==> r[j] == "IN PROGRESS"[j];
  }

  /** Status badge: REGISTERED yellow, ASSIGNED blue, IN_PROGRESS orange,
      RESOLVED green; CLOSED and every other value (REOPENED included) gray. */
  function StatusColor(status: JsStr): (r: Color)
    ensures r != Gray <==> status in {Str("REGISTERED"), Str("ASSIGNED"), Str("IN_PROGRESS"), Str("RESOLVED")}
    ensures status == Str("REGISTERED") ==> r == Yellow
    ensures status == Str("ASSIGNED") ==> r == Blue
    ensures status == Str("IN_PROGRESS") ==> r == Orange
    ensures status == Str("RESOLVED") ==> r == Green
  {
    if status == Str("REGISTERED") then Yellow
    else if status == Str("ASSIGNED") then Blue
    else if status == Str("IN_PROGRESS") then Orange
    else if status == Str("RESOLVED") then Green
    else if status == Str("CLOSED") then Gray
    else Gray
  }

  /** Priority badge: LOW green, MEDIUM yellow, HIGH orange, CRITICAL red,
      anything else gray. */
  function PriorityColor(priority: JsStr): (r: Color)
    ensures r != Gray <==> priority in {Str("LOW"), Str("MEDIUM"), Str("HIGH"), Str("CRITICAL")}
    ensures priority == Str("LOW") ==> r == Green
    ensures priority == Str("MEDIUM") ==> r == Yellow
    ensures priority == Str("HIGH") ==> r == Orange
    ensures priority == Str("CRITICAL") ==> r == Red
  {
    if priority == Str("LOW") then Green
    else if priority == Str("MEDIUM") then Yellow
    else if priority == Str("HIGH") then Orange
    else if priority == Str("CRITICAL") then Red
    else Gray
  }

  /** What one table row shows (the date column is not modelled). */
  datatype Row = Row(
    displayId: string,
    description: JsStr,
    typeLabel: string,
    areaLabel: string,
    statusLabel: string,
    statusColor: Color,
    priorityLabel: string,
    priorityColor: Color)

  function RowOf(c: RawComplaint): Row
  {
    Row(DisplayId(c), c.description, UnderscoreLabel(c.complaintType, "N/A"), OrElse(c.area, "N/A"),
        UnderscoreLabel(c.status, "Unknown"), StatusColor(c.status), OrElse(c.priority, "N/A"),
        PriorityColor(c.priority))
  }

  // ---------------------------------------------------------------- what the card shows

  datatype ListView = FailedPanel | Skeleton | NoComplaints(hint: string) | ComplaintTable(rows: seq<Row>)

  /** The whole card: a header with the title and the number of complaints,
      and the body below it. */
  datatype ListCard = ListCard(title: string, count: nat, body: ListView)

  /** The `title` prop, which defaults to "Complaints" when not passed. */
  function TitleOrDefault(title: Option<string>): (r: string)
    ensures title.Some? ==> r == title.value
    ensures title.None? ==> r == "Complaints"
  {
    match title
    case Some(t) => t
    case None => "Complaints"
  }

  /** The header sits outside the body's choice, so it always shows the
      number of complaints, beside the error panel and the skeleton too.
      In the body, error beats loading, loading beats the empty state, and
      only a non-empty list is tabled; among empty states `hasFilters` alone
      picks the hint. */
  function View(title: Option<string>, failed: bool, loading: bool, complaints: seq<RawComplaint>, filters: map<string, FilterValue>): (v: ListCard)
    ensures v.title == TitleOrDefault(title) && v.count == |complaints|
    ensures v.body == FailedPanel <==> failed
    ensures v.body == Skeleton <==> !failed && loading
    ensures v.body.NoComplaints? <==> !failed && !loading && complaints == []
    ensures v.body.NoComplaints? ==>
              (v.body.hint == "No complaints match the selected filters" <==> HasFilters(filters))
              && (v.body.hint == "No complaints available" <==> !HasFilters(filters))
    ensures v.body.ComplaintTable? ==>
              |v.body.rows| == |complaints| && forall i :: 0 <= i < |complaints| ==> v.body.rows[i] == RowOf(complaints[i])
  {
    var body :=
      if failed then FailedPanel
      else if loading then Skeleton
      else if complaints == [] then
        NoComplaints(if HasFilters(filters) then "No complaints match the selected filters" else "No complaints available")
      else ComplaintTable(seq(|complaints|, i requires 0 <= i < |complaints| => RowOf(complaints[i])));
    ListCard(TitleOrDefault(title), |complaints|, body)
  }

  /** After an update, from the quick actions or the modal: refetch, then
      notify the parent if it passed `onComplaintUpdate`. */
  function AfterUpdate(hasCallback: bool): (effects: seq<Effect>)
    ensures |effects| >= 1 && effects[0] == Refetch
    ensures NotifyComplaintUpdate in effects <==> hasCallback
    ensures hasCallback ==> effects[|effects| - 1] == NotifyComplaintUpdate
    ensures |effects| == if hasCallback then 2 else 1
  {
    [Refetch] + (if hasCallback then [NotifyComplaintUpdate] else [])
  }

  /** The card's own state: the update modal and the complaint it edits. */
  class Widget {
    var isUpdateModalOpen: bool
    var selectedComplaint: Option<RawComplaint>

    /** The modal is open exactly when a complaint is selected. */
    ghost predicate Valid()
      reads this
    {
      isUpdateModalOpen <==> selectedComplaint.Some?
    }

    constructor ()
      ensures Valid() && !isUpdateModalOpen && selectedComplaint == None
    {
      isUpdateModalOpen := false;
      selectedComplaint := None;
    }

    /** A row's quick actions asked for the modal. */
    method ShowUpdateModal(c: RawComplaint)
      modifies this
      ensures Valid() && isUpdateModalOpen && selectedComplaint == Some(c)
    {
      selectedComplaint := Some(c);
      isUpdateModalOpen := true;
    }

    /** The modal was closed without an update. */
    method CloseUpdateModal()
      modifies this
      ensures Valid() && !isUpdateModalOpen && selectedComplaint == None
    {
      isUpdateModalOpen := false;
      selectedComplaint := None;
    }

    /** The modal reports a successful update: close and clear it, then
        refetch and notify. */
    method UpdateSucceeded(hasCallback: bool) returns (effects: seq<Effect>)
      modifies this
      ensures Valid() && !isUpdateModalOpen && selectedComplaint == None
      ensures effects == AfterUpdate(hasCallback)
    {
      isUpdateModalOpen := false;
      selectedComplaint := None;
      effects := AfterUpdate(hasCallback);
    }
  }
}
