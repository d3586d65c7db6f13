/**
 * The campaign-log page (src/app/dashboard/campaign-logs/page.tsx): the
 * payload its form submits, how the form is prefilled from a log being
 * edited, and how the page's list of logs follows a save or a delete.
 */
module CampaignLogsPage {
  import opened Wrappers
  import opened JsText
  import opened Seqs

  /** The metric values a stored log carries, as the page reads them. */
  datatype StoredMetrics = StoredMetrics(
    reach: Option<int>, engagement: Option<int>, clicks: Option<int>,
    conversions: Option<int>, signups: Option<int>)

  /** A log as the list holds it. */
  datatype LogRow = LogRow(
    id: string, campaignId: string, activity: string, description: Option<string>,
    metrics: Option<StoredMetrics>, logDate: int)

  /** The form's values; an untouched text field is "". */
  datatype FormData = FormData(
    campaignId: string, activity: string, description: string, logDate: int,
    reach: string, engagement: string, clicks: string, conversions: string, signups: string)

  /** The request body: `metrics` lists the filled metric fields in form order, or is left out. */
  datatype Payload = Payload(
    campaignId: string, activity: string, description: string, logDate: int,
    metrics: Option<seq<(string, Number)>>)

  datatype Request = Request(verb: string, url: string, payload: Payload)

  const Endpoint := "/api/campaign-logs"

  /** The form's default values, `defaultDate` being the date taken when the form was set up. */
  function EmptyForm(defaultDate: int): FormData {
    FormData("", "", "", defaultDate, "", "", "", "", "")
  }

  /** The five metric fields with their payload names, in the order `handleSubmit` visits them. */
  function MetricFields(form: FormData): seq<(string, string)> {
    [("reach", form.reach), ("engagement", form.engagement), ("clicks", form.clicks),
     ("conversions", form.conversions), ("signups", form.signups)]
  }

  /** The filled fields, each parsed with `parseInt`, in order. */
  function Filled(fields: seq<(string, string)>): (metrics: seq<(string, Number)>)
    ensures |metrics| <= |fields|
  {
    if fields == [] then []
    else
      var rest := Filled(fields[1..]);
      if fields[0].1 != "" then [(fields[0].0, ParseInt(fields[0].1))] + rest else rest
  }

  /** A member is present exactly when some field is filled and the member is its name with its parsed text. */
  lemma {:induction false} FilledMembers(fields: seq<(string, string)>, e: (string, Number))
    ensures e in Filled(fields) <==> exists i :: 0 <= i < |fields| && fields[i].1 != "" &&
                                              e == (fields[i].0, ParseInt(fields[i].1))
  {
    if fields != [] {
      FilledMembers(fields[1..], e);
      assert forall i :: 1 <= i < |fields| ==> fields[i] == fields[1..][i - 1];
      if e in Filled(fields[1..]) {
        var i :| 0 <= i < |fields[1..]| && fields[1..][i].1 != "" && e == (fields[1..][i].0, ParseInt(fields[1..][i].1));
        assert fields[i + 1] == fields[1..][i];
      }
    }
  }

  /** One parsed member for a filled first field, none for an empty one. */
  function FilledOne(name: string, text: string): seq<(string, Number)> {
    if text != "" then [(name, ParseInt(text))] else []
  }

  lemma FilledCons(name: string, text: string, rest: seq<(string, string)>)
    ensures Filled([(name, text)] + rest) == FilledOne(name, text) + Filled(rest)
  {
    assert ([(name, text)] + rest)[1..] == rest;
  }

  /** No filled field, no members. */
  lemma {:induction false} FilledAllEmpty(fields: seq<(string, string)>)
    requires forall i :: 0 <= i < |fields| ==> fields[i].1 == ""
    ensures Filled(fields) == []
  {
    if fields != [] {
      FilledAllEmpty(fields[1..]);
    }
  }

  /** Appending a field appends its member, if it is filled. */
  lemma {:induction false} FilledSnoc(fields: seq<(string, string)>, x: (string, string))
    ensures Filled(fields + [x]) == Filled(fields) + FilledOne(x.0, x.1)
  {
    if fields == [] {
      assert fields + [x] == [x] + [];
      FilledCons(x.0, x.1, []);
    } else {
      var head, tail := fields[0], fields[1..];
      assert fields == [head] + tail;
      assert fields + [x] == [head] + (tail + [x]);
      FilledCons(head.0, head.1, tail + [x]);
      FilledCons(head.0, head.1, tail);
      FilledSnoc(tail, x);
    }
  }

  lemma MetricFieldsAt(form: FormData)
    ensures |MetricFields(form)| == 5
    ensures MetricFields(form)[0] == ("reach", form.reach) && MetricFields(form)[1] == ("engagement", form.engagement)
    ensures MetricFields(form)[2] == ("clicks", form.clicks) && MetricFields(form)[3] == ("conversions", form.conversions)
    ensures MetricFields(form)[4] == ("signups", form.signups)
  {
  }

  /**
   * One conditional assignment of `handleSubmit`: from the members of the
   * first k fields to those of the first k + 1.
   */
  lemma AppendStep(fields: seq<(string, string)>, k: nat, before: seq<(string, Number)>, after: seq<(string, Number)>)
    requires k < |fields| && before == Filled(fields[..k])
    requires after == if fields[k].1 != "" then before + [(fields[k].0, ParseInt(fields[k].1))] else before
    ensures after == Filled(fields[..k + 1])
  {
    assert fields[..k + 1] == fields[..k] + [fields[k]];
    FilledSnoc(fields[..k], fields[k]);
    if fields[k].1 == "" {
      assert before + [] == before;
    }
  }

  /**
   * The `metrics` object of `handleSubmit`: a member for each filled field,
   * set by successive conditional assignments.
   */
  method BuildMetrics(form: FormData) returns (metrics: seq<(string, Number)>)
    ensures metrics == Filled(MetricFields(form))
  {
    ghost var f := MetricFields(form);
    ghost var before := [];
    MetricFieldsAt(form);
    metrics := [];
    assert f[..0] == [];
    if form.reach != "" { metrics := metrics + [("reach", ParseInt(form.reach))]; }
    AppendStep(f, 0, before, metrics);
    before := metrics;
    if form.engagement != "" { metrics := metrics + [("engagement", ParseInt(form.engagement))]; }
    AppendStep(f, 1, before, metrics);
    before := metrics;
    if form.clicks != "" { metrics := metrics + [("clicks", ParseInt(form.clicks))]; }
    AppendStep(f, 2, before, metrics);
    before := metrics;
    if form.conversions != "" { metrics := metrics + [("conversions", ParseInt(form.conversions))]; }
    AppendStep(f, 3, before, metrics);
    before := metrics;
    if form.signups != "" { metrics := metrics + [("signups", ParseInt(form.signups))]; }
    AppendStep(f, 4, before, metrics);
    TakeAll(f);
  }

  /** `metrics: Object.keys(metrics).length > 0 ? metrics : undefined`. */
  function PayloadOf(form: FormData, metrics: seq<(string, Number)>): (payload: Payload)
    ensures payload.metrics.None? <==> metrics == []
    ensures payload.metrics.Some? ==> payload.metrics.value == metrics
    ensures payload.campaignId == form.campaignId && payload.activity == form.activity
    ensures payload.description == form.description && payload.logDate == form.logDate
  {
    Payload(form.campaignId, form.activity, form.description, form.logDate,
            if |metrics| > 0 then Some(metrics) else None)
  }

  /** The payload names exactly the filled fields: a name is present iff its field is not empty. */
  lemma FilledNamesExactlyTheFilledFields(form: FormData, name: string)
    ensures (exists n :: (name, n) in Filled(MetricFields(form))) <==>
            exists i :: 0 <= i < 5 && MetricFields(form)[i].0 == name && MetricFields(form)[i].1 != ""
  {
    var fields := MetricFields(form);
    if exists n :: (name, n) in Filled(fields) {
      var n :| (name, n) in Filled(fields);
      FilledMembers(fields, (name, n));
    }
    if exists i :: 0 <= i < 5 && fields[i].0 == name && fields[i].1 != "" {
      var i :| 0 <= i < 5 && fields[i].0 == name && fields[i].1 != "";
      FilledMembers(fields, (name, ParseInt(fields[i].1)));
    }
  }

  /** With every metric field empty, the payload has no `metrics`. */
  lemma NoFilledFieldNoMetrics(form: FormData)
    requires form.reach == "" && form.engagement == "" && form.clicks == ""
    requires form.conversions == "" && form.signups == ""
    ensures PayloadOf(form, Filled(MetricFields(form))).metrics.None?
  {
    FilledAllEmpty(MetricFields(form));
  }

  // ---------------------------------------------------------------------
  // Prefill

  /** `value?.toString() || ""`: a number's decimal text, or "" when absent. */
  function MetricText(value: Option<int>): (text: string)
    ensures value.None? <==> text == ""
    ensures value.Some? ==> ParseInt(text) == Num(value.value)
  {
    if value.None? then ""
    else
      ParseIntOfIntToString(value.value);
      var n: nat := if value.value < 0 then -value.value else value.value;
      assert |NatToString(n)| > 0;
      IntToString(value.value)
  }

  function MetricOf(metrics: Option<StoredMetrics>, pick: StoredMetrics -> Option<int>): Option<int> {
    if metrics.Some? then pick(metrics.value) else None
  }

  /** `openModal(log)`: the form an edit starts from. */
  function Prefill(log: LogRow): (form: FormData)
    ensures form.campaignId == log.campaignId && form.activity == log.activity
    ensures form.description == log.description.GetOr("") && form.logDate == log.logDate
  {
    var m := log.metrics;
    FormData(log.campaignId, log.activity, log.description.GetOr(""), log.logDate,
             MetricText(MetricOf(m, (s: StoredMetrics) => s.reach)),
             MetricText(MetricOf(m, (s: StoredMetrics) => s.engagement)),
             MetricText(MetricOf(m, (s: StoredMetrics) => s.clicks)),
             MetricText(MetricOf(m, (s: StoredMetrics) => s.conversions)),
             MetricText(MetricOf(m, (s: StoredMetrics) => s.signups)))
  }

  /** The stored metrics under their payload names, in form order. */
  function StoredValues(metrics: Option<StoredMetrics>): seq<(string, Option<int>)> {
    [("reach", MetricOf(metrics, (s: StoredMetrics) => s.reach)),
     ("engagement", MetricOf(metrics, (s: StoredMetrics) => s.engagement)),
     ("clicks", MetricOf(metrics, (s: StoredMetrics) => s.clicks)),
     ("conversions", MetricOf(metrics, (s: StoredMetrics) => s.conversions)),
     ("signups", MetricOf(metrics, (s: StoredMetrics) => s.signups))]
  }

  /** Each value as the form shows it. */
  function Texts(values: seq<(string, Option<int>)>): (fields: seq<(string, string)>)
    ensures |fields| == |values|
    ensures forall i :: 0 <= i < |values| ==> fields[i] == (values[i].0, MetricText(values[i].1))
  {
    if values == [] then [] else [(values[0].0, MetricText(values[0].1))] + Texts(values[1..])
  }

  /** The present values, as a payload carries them. */
  function Present(values: seq<(string, Option<int>)>): seq<(string, Number)> {
    if values == [] then []
    else (if values[0].1.Some? then [(values[0].0, Num(values[0].1.value))] else []) + Present(values[1..])
  }

  /** Showing values in the form and submitting them gives back exactly the present ones. */
  lemma {:induction false} FilledOfTexts(values: seq<(string, Option<int>)>)
    ensures Filled(Texts(values)) == Present(values)
  {
    if values != [] {
      FilledOfTexts(values[1..]);
      var head := (values[0].0, MetricText(values[0].1));
      assert Texts(values) == [head] + Texts(values[1..]);
      FilledCons(head.0, head.1, Texts(values[1..]));
    }
  }

  /**
   * Resubmitting a prefilled form sends the log's own metric values,
   * integers exactly, in form order, and no `metrics` when none is present.
   */
  lemma ResubmitReproducesMetrics(log: LogRow)
    ensures Filled(MetricFields(Prefill(log))) == Present(StoredValues(log.metrics))
    ensures PayloadOf(Prefill(log), Filled(MetricFields(Prefill(log)))).metrics.None? <==>
            Present(StoredValues(log.metrics)) == []
  {
    assert MetricFields(Prefill(log)) == Texts(StoredValues(log.metrics));
    FilledOfTexts(StoredValues(log.metrics));
  }

  /** A log without metrics resubmits without `metrics`. */
  lemma NoStoredMetricsNoPayloadMetrics(log: LogRow)
    requires log.metrics.None?
    ensures PayloadOf(Prefill(log), Filled(MetricFields(Prefill(log)))).metrics.None?
  {
    ResubmitReproducesMetrics(log);
    var v := StoredValues(log.metrics);
    assert v[1..][1..][1..][1..][1..] == [];
  }

  // ---------------------------------------------------------------------
  // The list

  /** `prev.map(l => l.id === log.id ? log : l)`. */
  function ReplaceById(rows: seq<LogRow>, saved: LogRow): (r: seq<LogRow>)
    ensures |r| == |rows|
    ensures forall i :: 0 <= i < |rows| ==> r[i] == if rows[i].id == saved.id then saved else rows[i]
  {
    if rows == [] then []
    else [if rows[0].id == saved.id then saved else rows[0]] + ReplaceById(rows[1..], saved)
  }

  function HasOtherId(id: string): LogRow -> bool {
    (l: LogRow) => l.id != id
  }

  /** `prev.filter(l => l.id !== log.id)`. */
  function RemoveById(rows: seq<LogRow>, id: string): (r: seq<LogRow>)
    ensures forall l :: l in r <==> l in rows && l.id != id
    ensures |r| <= |rows|
  {
    Filter(rows, HasOtherId(id))
  }

  /** Removing by id keeps the rest in order: it works piecewise on any split of the list. */
  lemma RemoveKeepsOrder(front: seq<LogRow>, back: seq<LogRow>, id: string)
    ensures RemoveById(front + back, id) == RemoveById(front, id) + RemoveById(back, id)
  {
    FilterAppend(front, back, HasOtherId(id));
  }

  /** A list without that id is left as it is. */
  lemma {:induction false} RemoveAbsentIdKeepsList(rows: seq<LogRow>, id: string)
    requires forall i :: 0 <= i < |rows| ==> rows[i].id != id
    ensures RemoveById(rows, id) == rows
  {
    if rows != [] {
      RemoveAbsentIdKeepsList(rows[1..], id);
      assert rows == [rows[0]] + rows[1..];
    }
  }

  /** An edit of a log no longer in the list changes nothing. */
  lemma {:induction false} ReplaceAbsentIdKeepsList(rows: seq<LogRow>, saved: LogRow)
    requires forall i :: 0 <= i < |rows| ==> rows[i].id != saved.id
    ensures ReplaceById(rows, saved) == rows
  {
    if rows != [] {
      ReplaceAbsentIdKeepsList(rows[1..], saved);
    }
  }

  /** The request a submit sends: PUT to the log's own address while editing, POST otherwise. */
  function RequestFor(editing: Option<LogRow>, payload: Payload): (req: Request)
    ensures editing.Some? ==> req.verb == "PUT" && req.url == Endpoint + "/" + editing.value.id
    ensures editing.None? ==> req.verb == "POST" && req.url == Endpoint
    ensures req.payload == payload
  {
    if editing.Some? then Request("PUT", Endpoint + "/" + editing.value.id, payload)
    else Request("POST", Endpoint, payload)
  }

  /**
   * The page's state: the list, the log being edited (if any), the modal and
   * its form. `defaults` are the values `form.reset()` restores: the
   * `useForm` defaults at first, and after `form.reset(values)` those values,
   * since a reset with values also makes them the new defaults.
   */
  class CampaignLogs {
    var logs: seq<LogRow>
    var editing: Option<LogRow>
    var modalOpen: bool
    var form: FormData
    var defaults: FormData
    const defaultDate: int

    constructor (defaultDate: int)
      ensures logs == [] && editing.None? && !modalOpen
      ensures form == EmptyForm(defaultDate) && defaults == EmptyForm(defaultDate)
      ensures this.defaultDate == defaultDate
    {
      this.defaultDate := defaultDate;
      logs, editing, modalOpen := [], None, false;
      form, defaults := EmptyForm(defaultDate), EmptyForm(defaultDate);
    }

    /** `loadLogs`: an ok response replaces the list. */
    method Load(ok: bool, data: seq<LogRow>)
      modifies this
      ensures logs == (if ok then data else old(logs))
      ensures editing == old(editing) && modalOpen == old(modalOpen)
      ensures form == old(form) && defaults == old(defaults)
    {
      if ok {
        logs := data;
      }
    }

    /**
     * `openModal(log?)`: edit a log with its values prefilled (which become
     * the form's defaults), or reset the form to its current defaults.
     */
    method OpenModal(log: Option<LogRow>)
      modifies this
      ensures editing == log && modalOpen
      ensures defaults == (if log.Some? then Prefill(log.value) else old(defaults))
      ensures form == defaults
      ensures logs == old(logs)
    {
      if log.Some? {
        editing := log;
        form, defaults := Prefill(log.value), Prefill(log.value);
      } else {
        editing := None;
        form := defaults;
      }
      modalOpen := true;
    }

    /** `closeModal`: the form goes back to its defaults. */
    method CloseModal()
      modifies this
      ensures !modalOpen && editing.None? && logs == old(logs)
      ensures form == old(defaults) && defaults == old(defaults)
    {
      modalOpen, editing, form := false, None, defaults;
    }

    /**
     * `handleSubmit(data)`: sends the request for `data`; when the response
     * is ok with the saved log, an edit replaces the rows with its id (a
     * create appends it) and the modal closes; otherwise nothing changes.
     */
    method Submit(data: FormData, ok: bool, saved: LogRow) returns (req: Request)
      modifies this
      ensures req == RequestFor(old(editing), PayloadOf(data, Filled(MetricFields(data))))
      ensures ok && old(editing).Some? ==> logs == ReplaceById(old(logs), saved)
      ensures ok && old(editing).None? ==> logs == old(logs) + [saved]
      ensures ok ==> !modalOpen && editing.None? && form == old(defaults)
      ensures !ok ==> logs == old(logs) && editing == old(editing) && modalOpen == old(modalOpen) && form == old(form)
      ensures defaults == old(defaults)
    {
      var metrics := BuildMetrics(data);
      req := RequestFor(editing, PayloadOf(data, metrics));
      if ok {
        if editing.Some? {
          logs := ReplaceById(logs, saved);
        } else {
          logs := logs + [saved];
        }
        CloseModal();
      }
    }

    /** `handleDelete(log)`: an ok response drops every row with that id. */
    method Delete(log: LogRow, ok: bool)
      modifies this
      ensures logs == (if ok then RemoveById(old(logs), log.id) else old(logs))
      ensures editing == old(editing) && modalOpen == old(modalOpen)
      ensures form == old(form) && defaults == old(defaults)
    {
      if ok {
        logs := RemoveById(logs, log.id);
      }
    }
  }

  /**
   * Editing a log, closing the modal and then clicking "Add" opens a form
   * that still holds the edited log's values, not the empty defaults.
   */
  method AddAfterEdit(defaultDate: int, log: LogRow) returns (form: FormData)
    ensures form == Prefill(log)
    ensures log.activity != "" ==> form != EmptyForm(defaultDate)
  {
    var page := new CampaignLogs(defaultDate);
    page.OpenModal(Some(log));
    page.CloseModal();
    page.OpenModal(None);
    form := page.form;
  }

  /** Editing a log and saving the server's copy leaves the list's length and order of ids as they were. */
  lemma EditKeepsIds(rows: seq<LogRow>, saved: LogRow)
    ensures |ReplaceById(rows, saved)| == |rows|
    ensures forall i :: 0 <= i < |rows| ==> ReplaceById(rows, saved)[i].id == rows[i].id
  {
  }
}
