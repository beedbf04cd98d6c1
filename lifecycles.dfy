/**
 * The lifecycle hooks of the `project` content type: before a project record
 * is created or updated, the write payload is stamped with
 * `project_status = "completed"` when all four milestone dates are present.
 */
module ProjectLifecycles {

  /** A JavaScript value as it can appear under a key of the write payload. */
  datatype Value =
    | Undefined        // the key is there but holds `undefined`
    | Null
    | Str(s: string)
    | Other            // a number, boolean, Date or any other object

  /** The four milestone-date fields, in the order the source lists them. */
  const RequiredDates: seq<string> :=
    ["const_start_date", "const_end_date", "rest_start_date", "rest_end_date"]

  const StatusField: string := "project_status"
  const Completed: string := "completed"

  /**
   * The source's presence test for one field: strictly unequal to `null`,
   * to `undefined` and to the empty string. A key missing from the payload
   * reads as `undefined`. Only the empty string is "empty": a string of
   * blanks, `0` or `false` counts as present.
   */
  predicate IsPresent(data: map<string, Value>, field: string)
  {
    field in data && data[field] != Null && data[field] != Undefined && data[field] != Str("")
  }

  /** `every` over `fields` with the presence test, checked front to back. */
  function AllPresent(fields: seq<string>, data: map<string, Value>): (r: bool)
    ensures r <==> forall i :: 0 <= i < |fields| ==> IsPresent(data, fields[i])
  {
    if fields == [] then true
    else IsPresent(data, fields[0]) && AllPresent(fields[1..], data)
  }

  /** Whether all four milestone dates of the payload are present. */
  function AllDatesPresent(data: map<string, Value>): (r: bool)
    ensures r <==>
      && IsPresent(data, "const_start_date")
      && IsPresent(data, "const_end_date")
      && IsPresent(data, "rest_start_date")
      && IsPresent(data, "rest_end_date")
  {
    assert RequiredDates == [RequiredDates[0], RequiredDates[1], RequiredDates[2], RequiredDates[3]];
    AllPresent(RequiredDates, data)
  }

  /**
   * The payload after the completion hook has run on it: the status is set
   * to "completed" when all dates are present, and otherwise nothing is
   * touched (there is no reset to an "in progress" status).
   */
  function Completion(data: map<string, Value>): (r: map<string, Value>)
  {
    if AllDatesPresent(data) then data[StatusField := Str(Completed)] else data
  }

  // ---------------------------------------------------------------------
  // Properties of the completion rule
  // ---------------------------------------------------------------------

  /** All four dates present: the status afterwards is "completed". */
  lemma CompletedWhenAllDatesPresent(data: map<string, Value>)
    requires AllDatesPresent(data)
    ensures StatusField in Completion(data)
    ensures Completion(data)[StatusField] == Str(Completed)
  {
  }

  /** One date null, undefined, missing or "": the payload is left exactly as it was. */
  lemma UnchangedWhenAnyDateMissing(data: map<string, Value>, field: string)
    requires field in RequiredDates
    requires !IsPresent(data, field)
    ensures Completion(data) == data
  {
  }

  /**
   * The payload changes exactly when all dates are present and the status
   * is not already "completed" (in both directions).
   */
  lemma PayloadChangesIff(data: map<string, Value>)
    ensures Completion(data) != data <==>
      AllDatesPresent(data) && (StatusField !in data || data[StatusField] != Str(Completed))
  {
  }

  /** No key other than `project_status` is added, removed or changed. */
  lemma OtherKeysUntouched(data: map<string, Value>)
    ensures Completion(data).Keys - {StatusField} == data.Keys - {StatusField}
    ensures forall k :: k in data && k != StatusField ==> Completion(data)[k] == data[k]
  {
  }

  /** The milestone dates themselves are never touched. */
  lemma DatesUntouched(data: map<string, Value>, field: string)
    requires field in RequiredDates
    ensures field in Completion(data) <==> field in data
    ensures field in data ==> Completion(data)[field] == data[field]
  {
  }

  /** The only status value ever written is "completed". */
  lemma OnlyCompletedIsWritten(data: map<string, Value>)
    ensures StatusField in Completion(data) ==>
      Completion(data)[StatusField] == Str(Completed) ||
      (StatusField in data && Completion(data)[StatusField] == data[StatusField])
  {
  }

  /** No downgrade: a "completed" status stays "completed", whatever the dates are. */
  lemma NoDowngrade(data: map<string, Value>)
    requires StatusField in data && data[StatusField] == Str(Completed)
    ensures StatusField in Completion(data) && Completion(data)[StatusField] == Str(Completed)
  {
  }

  /** Two payloads that agree on `fields` agree on whether all of them are present. */
  lemma AllPresentDependsOnlyOnFields(fields: seq<string>, d1: map<string, Value>, d2: map<string, Value>)
    requires forall i :: 0 <= i < |fields| ==> (fields[i] in d1 <==> fields[i] in d2)
    requires forall i :: 0 <= i < |fields| && fields[i] in d1 ==> d1[fields[i]] == d2[fields[i]]
    ensures AllPresent(fields, d1) == AllPresent(fields, d2)
  {
  }

  /** The outcome depends only on the four date keys: any other key may differ. */
  lemma DecisionDependsOnlyOnDates(d1: map<string, Value>, d2: map<string, Value>)
    requires forall f :: f in RequiredDates ==> (f in d1 <==> f in d2)
    requires forall f :: f in RequiredDates && f in d1 ==> d1[f] == d2[f]
    ensures AllDatesPresent(d1) == AllDatesPresent(d2)
    ensures AllDatesPresent(d1) ==>
      StatusField in Completion(d2) && Completion(d2)[StatusField] == Str(Completed)
  {
  }

  /** Running the rule twice gives the same payload as running it once. */
  lemma Idempotent(data: map<string, Value>)
    ensures Completion(Completion(data)) == Completion(data)
  {
  }

  // ---------------------------------------------------------------------
  // The hooks, acting in place on the shared payload
  // ---------------------------------------------------------------------

  /** A lifecycle event; `data` is the write payload the framework persists afterwards. */
  class Event {
    var data: map<string, Value>

    constructor (data: map<string, Value>)
      ensures this.data == data
    {
      this.data := data;
    }
  }

  /** Stamps the payload of `event` as completed when all four dates are present. */
  method MarkProjectCompletion(event: Event)
    modifies event
    ensures event.data == Completion(old(event.data))
  {
    var data := event.data;
    var allDatesPresent := AllPresent(RequiredDates, data);
    if allDatesPresent {
      event.data := data[StatusField := Str(Completed)];
    }
  }

  /** The hook the framework runs before a project is created. */
  method BeforeCreate(event: Event)
    modifies event
    ensures event.data == Completion(old(event.data))
  {
    MarkProjectCompletion(event);
  }

  /** The hook the framework runs before a project is updated. */
  method BeforeUpdate(event: Event)
    modifies event
    ensures event.data == Completion(old(event.data))
  {
    MarkProjectCompletion(event);
  }

  /** Both hooks leave the same payload behind when given the same payload. */
  method HooksAgree(data: map<string, Value>) returns (created: map<string, Value>, updated: map<string, Value>)
    ensures created == updated
    ensures created == Completion(data)
  {
    var e1 := new Event(data);
    BeforeCreate(e1);
    var e2 := new Event(data);
    BeforeUpdate(e2);
    created, updated := e1.data, e2.data;
  }

  /** Running the hook twice on one event leaves the payload of a single run. */
  method HookTwice(data: map<string, Value>) returns (once: map<string, Value>, twice: map<string, Value>)
    ensures once == Completion(data)
    ensures twice == once
  {
    var e := new Event(data);
    MarkProjectCompletion(e);
    once := e.data;
    MarkProjectCompletion(e);
    twice := e.data;
  }
}
