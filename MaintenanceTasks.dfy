/** The maintenance team's task page: complaints assigned to the signed-in
    member become task records, which are counted, filtered by the selected
    card, given their actions and badge colours, and resolved through a
    dialog. */
module MaintenanceTasks {
  import opened Js
  import opened Ui
  import opened ComplaintsApi

  /** A task as the page derives it from a complaint. `dueDate` keeps the
      deadline timestamp (its date formatting is not modelled). */
  datatype Task = Task(
    id: string,
    title: string,
    location: JsStr,
    address: string,
    priority: string,
    status: JsStr,
    estimatedTime: string,
    dueDate: Option<int>,
    isOverdue: bool,
    description: JsStr,
    assignedAt: JsStr,
    resolvedAt: JsStr,
    photo: Option<string>,
    latitude: Option<real>,
    longitude: Option<real>,
    complaintId: JsStr)

  // ---------------------------------------------------------------- derived fields

  /** The complaint's title, or "<type> Issue" when it has none. */
  function TitleOf(c: RawComplaint): (r: string)
    ensures r != ""
    ensures Truthy(c.title) ==> r == c.title.s
    ensures !Truthy(c.title) ==> r == Template(c.complaintType) + " Issue"
  {
    if Truthy(c.title) then c.title.s else Template(c.complaintType) + " Issue"
  }

  /** The area, then ", landmark" and ", address" when those are non-empty. */
  function AddressOf(c: RawComplaint): string
  {
    Template(c.area)
    + (if Truthy(c.landmark) then ", " + c.landmark.s else "")
    + (if Truthy(c.address) then ", " + c.address.s else "")
  }

  /** The address always starts with the area as printed; each optional part
      appears, in order, exactly when it is non-empty. */
  lemma AddressParts(c: RawComplaint)
    ensures var r, a := AddressOf(c), Template(c.area);
      && |a| <= |r| && r[..|a|] == a
      && |r| == |a| + (if Truthy(c.landmark) then 2 + |c.landmark.s| else 0)
                    + (if Truthy(c.address) then 2 + |c.address.s| else 0)
      && (Truthy(c.landmark) ==> r[|a|..|a| + 2 + |c.landmark.s|] == ", " + c.landmark.s)
      && (Truthy(c.address) ==> r[|r| - 2 - |c.address.s|..] == ", " + c.address.s)
      && (!Truthy(c.landmark) && !Truthy(c.address) ==> r == a)
  {
    var a := Template(c.area);
    var l := if Truthy(c.landmark) then ", " + c.landmark.s else "";
    var d := if Truthy(c.address) then ", " + c.address.s else "";
    assert AddressOf(c) == a + l + d;
    assert (a + l + d)[..|a|] == a;
    assert (a + l + d)[|a|..|a| + |l|] == l;
    assert (a + l + d)[|a| + |l|..] == d;
  }

  /** `complaint.priority || "MEDIUM"`. */
  function PriorityOf(c: RawComplaint): (r: string)
    ensures r != ""
    ensures Truthy(c.priority) ==> r == c.priority.s
    ensures !Truthy(c.priority) ==> r == "MEDIUM"
  {
    OrElse(c.priority, "MEDIUM")
  }

  /** The estimated effort for a priority; MEDIUM and every unrecognised value
      share "1-2 days". */
  function EstimatedTime(priority: JsStr): (r: string)
    ensures priority == Str("CRITICAL") ==> r == "2-4 hours"
    ensures priority == Str("HIGH") ==> r == "4-8 hours"
    ensures priority == Str("LOW") ==> r == "2-5 days"
    ensures r == "1-2 days" <==>
              priority != Str("CRITICAL") && priority != Str("HIGH") && priority != Str("LOW")
  {
    if priority == Str("CRITICAL") then "2-4 hours"
    else if priority == Str("HIGH") then "4-8 hours"
    else if priority == Str("MEDIUM") then "1-2 days"
    else if priority == Str("LOW") then "2-5 days"
    else "1-2 days"
  }

  /** The estimate is taken from the raw priority, but it is the same as the
      estimate of the priority the task displays: a missing priority shows as
      MEDIUM and is estimated as MEDIUM. */
  lemma EstimateMatchesDisplayedPriority(c: RawComplaint)
    ensures EstimatedTime(c.priority) == EstimatedTime(Str(PriorityOf(c)))
    ensures !Truthy(c.priority) ==> EstimatedTime(c.priority) == "1-2 days"
  {
  }

  /** A task is overdue when it has a deadline strictly before `now` and is
      neither RESOLVED nor CLOSED. */
  function IsOverdue(deadline: Option<int>, status: JsStr, now: int): (r: bool)
    ensures r <==> deadline.Some? && deadline.value < now
                   && status != Str("RESOLVED") && status != Str("CLOSED")
  {
    match deadline
    case None => false
    case Some(d) => d < now && !(status == Str("RESOLVED") || status == Str("CLOSED"))
  }

  /** A deadline equal to the current time is not yet overdue. */
  lemma DeadlineNowIsNotOverdue(d: int, status: JsStr)
    ensures !IsOverdue(Some(d), status, d)
    ensures IsOverdue(Some(d - 1), status, d) <==> status != Str("RESOLVED") && status != Str("CLOSED")
  {
  }

  /** The first attachment's url, when there is one and it is non-empty. */
  function PhotoOf(c: RawComplaint): (r: Option<string>)
    ensures r.Some? <==> c.attachmentUrls.Some? && |c.attachmentUrls.value| > 0 && Truthy(c.attachmentUrls.value[0])
    ensures r.Some? ==> r == Some(c.attachmentUrls.value[0].s)
  {
    match c.attachmentUrls
    case Some(urls) => if |urls| > 0 && Truthy(urls[0]) then Some(urls[0].s) else None
    case None => None
  }

  /** The task record derived from one complaint at time `now`. */
  function ToTask(c: RawComplaint, now: int): Task
  {
    Task(
      id := c.id,
      title := TitleOf(c),
      location := c.area,
      address := AddressOf(c),
      priority := PriorityOf(c),
      status := c.status,
      estimatedTime := EstimatedTime(c.priority),
      dueDate := c.deadline,
      isOverdue := IsOverdue(c.deadline, c.status, now),
      description := c.description,
      assignedAt := Or(c.assignedOn, c.submittedOn),
      resolvedAt := c.resolvedOn,
      photo := PhotoOf(c),
      latitude := c.latitude,
      longitude := c.longitude,
      complaintId := c.complaintId)
  }

  /** `complaints.map(...)`: one task per complaint, in the same order. */
  function DeriveTasks(cs: seq<RawComplaint>, now: int): (ts: seq<Task>)
    ensures |ts| == |cs|
    ensures forall i :: 0 <= i < |cs| ==> ts[i] == ToTask(cs[i], now)
  {
    if cs == [] then [] else [ToTask(cs[0], now)] + DeriveTasks(cs[1..], now)
  }

  /** The page's task list for a (possibly absent) response. */
  function Tasks(resp: Option<Response>, now: int): (ts: seq<Task>)
    ensures |ts| == |Complaints(resp)|
    ensures forall i :: 0 <= i < |ts| ==> ts[i].id == Complaints(resp)[i].id
    ensures forall i :: 0 <= i < |ts| ==> ts[i] == ToTask(Complaints(resp)[i], now)
    ensures resp.None? ==> ts == []
  {
    DeriveTasks(Complaints(resp), now)
  }

  // ---------------------------------------------------------------- the task list as written

  /** Whether the `const` holding the estimate helper has been initialised at
      the moment the memoised factory calls it. The factory runs during render
      before that declaration is reached, so as written it is not. */
  datatype Binding = Uninitialized | Initialized

  datatype Fault = ReferenceError | TypeError

  /** `Array.prototype.map` over the complaints with the callback as written:
      the callback calls the helper, which throws while the binding is
      uninitialised; the first throw ends the map. */
  function DeriveTasksAsWritten(cs: seq<RawComplaint>, now: int, helper: Binding): Result<seq<Task>, Fault>
  {
    if cs == [] then Success([])
    else if helper == Uninitialized then Failure(ReferenceError)
    else match DeriveTasksAsWritten(cs[1..], now, helper)
      case Success(rest) => Success([ToTask(cs[0], now)] + rest)
      case Failure(e) => Failure(e)
  }

  /** The memoised task list as written: evaluated before the helper exists. */
  function TasksAsWritten(resp: Option<Response>, now: int): Result<seq<Task>, Fault>
  {
    DeriveTasksAsWritten(Complaints(resp), now, Uninitialized)
  }

  /** As written, the page's render throws as soon as the response holds at
      least one complaint; only an empty or absent list renders. */
  lemma TasksAsWrittenThrows(resp: Option<Response>, now: int)
    ensures TasksAsWritten(resp, now).Failure? <==> Complaints(resp) != []
    ensures Complaints(resp) == [] ==> TasksAsWritten(resp, now) == Success(Tasks(resp, now))
  {
  }

  /** With the helper initialised before use, the callback as written computes
      exactly the intended task list. */
  lemma {:induction false} AsWrittenOnceInitialized(cs: seq<RawComplaint>, now: int)
    ensures DeriveTasksAsWritten(cs, now, Initialized) == Success(DeriveTasks(cs, now))
  {
    if cs != [] {
      AsWrittenOnceInitialized(cs[1..], now);
    }
  }

  // ---------------------------------------------------------------- counting and filtering

  /** `ts.filter(keep)`. */
  function Select(ts: seq<Task>, keep: Task -> bool): (r: seq<Task>)
    ensures |r| <= |ts|
    ensures forall t :: t in r ==> t in ts && keep(t)
    ensures forall t :: t in ts && keep(t) ==> t in r
  {
    if ts == [] then []
    else (if keep(ts[0]) then [ts[0]] else []) + Select(ts[1..], keep)
  }

  /** `ts.filter(keep).length`, counted directly. */
  function CountIf(ts: seq<Task>, keep: Task -> bool): nat
  {
    if ts == [] then 0
    else (if keep(ts[0]) then 1 else 0) + CountIf(ts[1..], keep)
  }

  predicate IsPending(t: Task) { t.status == Str("ASSIGNED") }
  predicate IsOverdueTask(t: Task) { t.isOverdue }
  predicate IsResolved(t: Task) { t.status == Str("RESOLVED") }
  predicate IsReopened(t: Task) { t.status == Str("REOPENED") }
  predicate IsInProgress(t: Task) { t.status == Str("IN_PROGRESS") }

  datatype TaskCounts = TaskCounts(total: nat, pending: nat, overdue: nat, resolved: nat, reopened: nat, inProgress: nat)

  /** The five counter cards (and the in-progress count the page also keeps). */
  function Counts(ts: seq<Task>): (k: TaskCounts)
    ensures k.total == |ts|
    ensures k.pending + k.resolved + k.reopened + k.inProgress <= |ts|
  {
    CountsPartition(ts);
    TaskCounts(|ts|, CountIf(ts, IsPending), CountIf(ts, IsOverdueTask), CountIf(ts, IsResolved),
               CountIf(ts, IsReopened), CountIf(ts, IsInProgress))
  }

  /** Each task has one status, so the four status counters together never
      exceed the total. */
  lemma {:induction false} CountsPartition(ts: seq<Task>)
    ensures CountIf(ts, IsPending) + CountIf(ts, IsResolved) + CountIf(ts, IsReopened)
            + CountIf(ts, IsInProgress) <= |ts|
  {
    if ts != [] {
      CountsPartition(ts[1..]);
    }
  }

  /** Does the filter card `filter` keep task `t`? "all" and any unknown key
      keep everything. */
  predicate Keeps(filter: string, t: Task)
  {
    if filter == "pending" then IsPending(t)
    else if filter == "overdue" then IsOverdueTask(t)
    else if filter == "resolved" then IsResolved(t)
    else if filter == "reopened" then IsReopened(t)
    else if filter == "inProgress" then IsInProgress(t)
    else true
  }

  predicate IsNamedFilter(filter: string)
  {
    filter in {"pending", "overdue", "resolved", "reopened", "inProgress"}
  }

  /** The tasks listed under the selected card. */
  function FilteredTasks(ts: seq<Task>, filter: string): seq<Task>
  {
    Select(ts, t => Keeps(filter, t))
  }

  lemma {:induction false} SelectLength(ts: seq<Task>, p: Task -> bool, q: Task -> bool)
    requires forall t :: p(t) == q(t)
    ensures |Select(ts, p)| == CountIf(ts, q)
  {
    if ts != [] {
      SelectLength(ts[1..], p, q);
    }
  }

  lemma {:induction false} SelectAppend(a: seq<Task>, b: seq<Task>, p: Task -> bool)
    ensures Select(a + b, p) == Select(a, p) + Select(b, p)
  {
    if a == [] {
      assert a + b == b;
    } else {
      assert (a + b)[1..] == a[1..] + b;
      SelectAppend(a[1..], b, p);
    }
  }

  lemma {:induction false} SelectEverything(ts: seq<Task>, p: Task -> bool)
    requires forall t :: p(t)
    ensures Select(ts, p) == ts
  {
    if ts != [] {
      SelectEverything(ts[1..], p);
    }
  }

  /** The list under each named filter is exactly as long as its counter;
      "all" and unknown keys list every task, as many as the total. The page
      has no card that sets "inProgress", so that branch is stated for
      completeness only. */
  lemma FilterMatchesCounter(ts: seq<Task>, filter: string)
    ensures filter == "pending" ==> |FilteredTasks(ts, filter)| == Counts(ts).pending
    ensures filter == "overdue" ==> |FilteredTasks(ts, filter)| == Counts(ts).overdue
    ensures filter == "resolved" ==> |FilteredTasks(ts, filter)| == Counts(ts).resolved
    ensures filter == "reopened" ==> |FilteredTasks(ts, filter)| == Counts(ts).reopened
    ensures filter == "inProgress" ==> |FilteredTasks(ts, filter)| == Counts(ts).inProgress
    ensures !IsNamedFilter(filter) ==> FilteredTasks(ts, filter) == ts
    ensures |FilteredTasks(ts, filter)| <= Counts(ts).total
  {
    var keep := t => Keeps(filter, t);
    if filter == "pending" {
      SelectLength(ts, keep, IsPending);
    } else if filter == "overdue" {
      SelectLength(ts, keep, IsOverdueTask);
    } else if filter == "resolved" {
      SelectLength(ts, keep, IsResolved);
    } else if filter == "reopened" {
      SelectLength(ts, keep, IsReopened);
    } else if filter == "inProgress" {
      SelectLength(ts, keep, IsInProgress);
    } else {
      SelectEverything(ts, keep);
    }
  }

  /** Filtering keeps the tasks' order: it distributes over concatenation. */
  lemma FilterPreservesOrder(a: seq<Task>, b: seq<Task>, filter: string)
    ensures FilteredTasks(a + b, filter) == FilteredTasks(a, filter) + FilteredTasks(b, filter)
  {
    SelectAppend(a, b, t => Keeps(filter, t));
  }

  // ---------------------------------------------------------------- actions

  /** Start Work is offered for an ASSIGNED task. */
  predicate OffersStartWork(t: Task) { t.status == Str("ASSIGNED") }

  /** Mark as Resolved is offered for an IN_PROGRESS or REOPENED task. */
  predicate OffersMarkResolved(t: Task) { t.status == Str("IN_PROGRESS") || t.status == Str("REOPENED") }

  /** No task is offered both actions; Start Work goes exactly with the
      "pending" card and Mark as Resolved with "inProgress" or "reopened". */
  lemma ActionsExclusive(t: Task)
    ensures !(OffersStartWork(t) && OffersMarkResolved(t))
    ensures OffersStartWork(t) <==> Keeps("pending", t)
    ensures OffersMarkResolved(t) <==> Keeps("inProgress", t) || Keeps("reopened", t)
  {
  }

  /** Start Work: request IN_PROGRESS for the task, then refetch only if the
      request succeeded. */
  function StartWork(taskId: string, outcome: Outcome): (effects: seq<Effect>)
    ensures |effects| >= 1 && effects[0] == UpdateStatus(taskId, "IN_PROGRESS", None)
    ensures Refetch in effects <==> outcome == Succeeded
    ensures outcome == Succeeded ==> effects == [UpdateStatus(taskId, "IN_PROGRESS", None), Refetch]
    ensures outcome == Failed ==> effects == [UpdateStatus(taskId, "IN_PROGRESS", None)]
  {
    [UpdateStatus(taskId, "IN_PROGRESS", None)] + (if outcome == Succeeded then [Refetch] else [])
  }

  // ---------------------------------------------------------------- badges and navigation

  /** The status text on a task card, `task.status.replace("_", " ")`. Unlike
      the list card's label there is no `?.` guard, so a task without a status
      throws during render. */
  function StatusText(t: Task): (r: Result<string, Fault>)
    ensures r.Failure? <==> !t.status.Str?
    ensures r.Failure? ==> r.error == TypeError
    ensures r.Success? ==> |r.value| == |t.status.s|
    ensures r.Success? ==> forall j :: 0 <= j < |r.value| ==>
              r.value[j] == (if j == FirstIndexOf(t.status.s, '_') then ' ' else t.status.s[j])
  {
    match t.status
    case Str(s) => Success(ReplaceFirst(s, '_', ' '))
    case _ => Failure(TypeError)
  }

  /** Priority badge: HIGH red, MEDIUM yellow, LOW green, anything else
      (CRITICAL included) gray. */
  function PriorityColor(priority: string): (r: Color)
    ensures r != Gray <==> priority in {"HIGH", "MEDIUM", "LOW"}
    ensures priority == "HIGH" ==> r == Red
    ensures priority == "MEDIUM" ==> r == Yellow
    ensures priority == "LOW" ==> r == Green
  {
    if priority == "HIGH" then Red
    else if priority == "MEDIUM" then Yellow
    else if priority == "LOW" then Green
    else Gray
  }

  /** Status badge: ASSIGNED blue, IN_PROGRESS orange, RESOLVED green,
      REOPENED purple, anything else gray. */
  function StatusColor(status: JsStr): (r: Color)
    ensures r != Gray <==> status in {Str("ASSIGNED"), Str("IN_PROGRESS"), Str("RESOLVED"), Str("REOPENED")}
    ensures status == Str("ASSIGNED") ==> r == Blue
    ensures status == Str("IN_PROGRESS") ==> r == Orange
    ensures status == Str("RESOLVED") ==> r == Green
    ensures status == Str("REOPENED") ==> r == Purple
  {
    if status == Str("ASSIGNED") then Blue
    else if status == Str("IN_PROGRESS") then Orange
    else if status == Str("RESOLVED") then Green
    else if status == Str("REOPENED") then Purple
    else Gray
  }

  datatype MapTarget = Coordinates(lat: real, lng: real) | AddressSearch(address: string)

  /** Navigate uses the coordinates only when both are present and non-zero;
      otherwise it searches for the address. */
  function NavigateTarget(t: Task): (r: MapTarget)
    ensures r.Coordinates? <==> NumTruthy(t.latitude) && NumTruthy(t.longitude)
    ensures r.Coordinates? ==> r == Coordinates(t.latitude.value, t.longitude.value)
    ensures r.AddressSearch? ==> r.address == t.address
  {
    if NumTruthy(t.latitude) && NumTruthy(t.longitude) then Coordinates(t.latitude.value, t.longitude.value)
    else AddressSearch(t.address)
  }

  /** A coordinate of exactly 0 counts as missing. */
  lemma ZeroCoordinateFallsBack(t: Task)
    requires t.latitude == Some(0.0) || t.longitude == Some(0.0)
    ensures NavigateTarget(t) == AddressSearch(t.address)
  {
  }

  // ---------------------------------------------------------------- page states

  datatype PageView = LoadingSkeleton | LoadError | TaskList

  /** The page tests loading before error. */
  function View(isLoading: bool, failed: bool): (v: PageView)
    ensures v == LoadingSkeleton <==> isLoading
    ensures v == LoadError <==> !isLoading && failed
  {
    if isLoading then LoadingSkeleton else if failed then LoadError else TaskList
  }

  /** The page's own state: the selected card and the resolve dialog. */
  class TaskPage {
    var activeFilter: string
    var isMarkResolvedOpen: bool
    var selectedTask: Option<Task>
    var resolveComment: string
    /** The chosen completion photo, by file name. */
    var resolvePhoto: Option<string>

    /** Whenever the dialog is open it has a task to resolve. */
    ghost predicate Valid()
      reads this
    {
      isMarkResolvedOpen ==> selectedTask.Some?
    }

    constructor ()
      ensures Valid()
      ensures activeFilter == "all" && !isMarkResolvedOpen && selectedTask == None
      ensures resolveComment == "" && resolvePhoto == None
    {
      activeFilter := "all";
      isMarkResolvedOpen := false;
      selectedTask := None;
      resolveComment := "";
      resolvePhoto := None;
    }

    /** Clicking a counter card. */
    method SelectFilter(filter: string)
      requires Valid()
      modifies this`activeFilter
      ensures Valid() && activeFilter == filter
    {
      activeFilter := filter;
    }

    /** `handleMarkResolved`: select the task and open the dialog; the comment
        and photo are left as they were. */
    method MarkResolved(task: Task)
      modifies this`selectedTask, this`isMarkResolvedOpen
      ensures Valid()
      ensures selectedTask == Some(task) && isMarkResolvedOpen
    {
      selectedTask := Some(task);
      isMarkResolvedOpen := true;
    }

    /** Typing in the completion-notes box. */
    method EditComment(text: string)
      requires Valid()
      modifies this`resolveComment
      ensures Valid() && resolveComment == text
    {
      resolveComment := text;
    }

    /** Choosing (or clearing) the completion photo. */
    method ChoosePhoto(file: Option<string>)
      requires Valid()
      modifies this`resolvePhoto
      ensures Valid() && resolvePhoto == file
    {
      resolvePhoto := file;
    }

    /** The dialog closing itself (Escape or a click outside): only the open
        flag changes. */
    method DismissDialog()
      requires Valid()
      modifies this`isMarkResolvedOpen
      ensures Valid() && !isMarkResolvedOpen
    {
      isMarkResolvedOpen := false;
    }

    /** The Mark Resolved button is enabled unless the comment is blank. */
    function SubmitEnabled(): (r: bool)
      reads this
      ensures r <==> exists i :: 0 <= i < |resolveComment| && !IsWhiteSpace(resolveComment[i])
    {
      TrimEmptyIffBlank(resolveComment);
      Trim(resolveComment) != ""
    }

    /** `submitMarkResolved`, up to its `await`: with no task selected nothing
        happens; otherwise RESOLVED is requested for the selected task with the
        comment as remarks. Nothing changes while the request is in flight, so
        the dialog stays usable and a second click sends a second request. */
    method SubmitMarkResolved() returns (effects: seq<Effect>)
      ensures selectedTask.None? ==> effects == []
      ensures selectedTask.Some? ==>
                effects == [UpdateStatus(selectedTask.value.id, "RESOLVED", Some(resolveComment))]
    {
      effects := [];
      if selectedTask.Some? {
        effects := [UpdateStatus(selectedTask.value.id, "RESOLVED", Some(resolveComment))];
      }
    }

    /** `submitMarkResolved` after its `await`. On success the dialog is
        closed, the comment, photo and task are cleared and the list refetched,
        whatever task is selected by then; on failure nothing changes. */
    method ResolveSettled(outcome: Outcome) returns (effects: seq<Effect>)
      requires Valid()
      modifies this`isMarkResolvedOpen, this`resolveComment, this`resolvePhoto, this`selectedTask
      ensures Valid()
      ensures outcome == Succeeded ==>
                effects == [Refetch]
                && !isMarkResolvedOpen && resolveComment == "" && resolvePhoto == None && selectedTask == None
      ensures outcome == Failed ==>
                effects == []
                && isMarkResolvedOpen == old(isMarkResolvedOpen) && resolveComment == old(resolveComment)
                && resolvePhoto == old(resolvePhoto) && selectedTask == old(selectedTask)
    {
      effects := [];
      if outcome == Succeeded {
        isMarkResolvedOpen := false;
        resolveComment := "";
        resolvePhoto := None;
        selectedTask := None;
        effects := [Refetch];
      }
    }

    /** The Cancel button: close the dialog and clear comment, photo and task. */
    method CancelResolve()
      requires Valid()
      modifies this`isMarkResolvedOpen, this`resolveComment, this`resolvePhoto, this`selectedTask
      ensures Valid()
      ensures !isMarkResolvedOpen && resolveComment == "" && resolvePhoto == None && selectedTask == None
    {
      isMarkResolvedOpen := false;
      resolveComment := "";
      resolvePhoto := None;
      selectedTask := None;
    }
  }
}
