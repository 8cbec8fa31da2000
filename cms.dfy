/** What both batch scripts share: the CMS calls, the scripted answers to them,
    the log, the success-envelope rule, and the loop over the CSV rows with its
    single error boundary. */
module Cms {
  import opened PyJson

  /** One request to the CMS REST API, with what it names and what it sends.
      The asset type and path are the values formatted into the URL; they are
      JSON values because the subscriber fan-out takes them from a response. */
  datatype Call =
    | Read(assetType: Json, site: string, path: Json)          // GET  /read/{type}/{site}/{path}
    | ReadById(assetType: Json, id: string)                    // GET  /read/{type}/{id}
    | Edit(payload: Json)                                      // POST /edit
    | Move(assetType: Json, site: string, path: Json, parameters: Json)
                                                               // POST /move/{type}/{site}/{path}
    | Publish(assetType: Json, site: string, path: Json)       // POST /publish/{type}/{site}/{path}
    | ListSubscribers(assetType: Json, site: string, path: Json)
                                                               // GET  /listSubscribers/{type}/{site}/{path}

  /** What a call gives back: a network failure (requests.RequestException),
      a body that is not JSON (requests.JSONDecodeError), or a decoded body. */
  datatype Response = Transport | NotJson | Body(json: Json)

  /** The CMS as a script of answers: the answer to the n-th call of the run. */
  type Oracle = (nat, Call) -> Response

  /** The lines the scripts write to their log file (timestamps left out). */
  datatype LogEvent =
    | Started
    | NetworkIssue
    | ParseError(path: string, returned: Json)
    | EditFailed(path: string, message: Json)
    | DisplayNameRenamed(path: string, newName: string)
    | DisplayNameMissing(path: string)
    | MoveFailed(path: string, message: Json)
    | Moved(path: string, newName: string)
    | PublishFailed(path: string, message: Json)
    | Published(path: string)
    | SubscribersFailed(path: string, message: Json)
    | PublishingRelated(path: string)
    | NoOtherAssets
    | SubscriberSkipped(asset: Json)
    | SubscriberPublishFailed(asset: Json, message: Json)
    | SubscriberPublished(asset: Json)
    | Updated(path: string)

  /** Everything a run has done so far: the calls issued and the log written. */
  datatype State = State(trace: seq<Call>, log: seq<LogEvent>)

  /** How one row ends: on to the next row, a RuntimeWarning (caught at the top
      of the script, which then stops), or an exception nothing catches. */
  datatype RowEnd = Next | Warn(problem: string) | Crash(exc: Exc)

  /** How the whole run ends. */
  datatype Status = Completed | Warned(problem: string) | Crashed(exc: Exc)

  /** The state when the row loop starts: the "Running ..." line is written. */
  function Initial(): State {
    State([], [Started])
  }

  /** Issues `call`; the oracle answers it as the next call of the run. */
  function Issue(oracle: Oracle, st: State, call: Call): (State, Response) {
    (st.(trace := st.trace + [call]), oracle(|st.trace|, call))
  }

  function Write(st: State, e: LogEvent): State {
    st.(log := st.log + [e])
  }

  /** The `except` clauses around a row for a response that is not a body:
      a RequestException logs a network issue, a JSONDecodeError only prints;
      either way the script goes on with the next row. */
  function RequestFailed(st: State, resp: Response): (r: State)
    requires !resp.Body?
    ensures r.trace == st.trace
    ensures resp.Transport? ==> r.log == st.log + [NetworkIssue]
    ensures resp.NotJson? ==> r.log == st.log
  {
    if resp.Transport? then Write(st, NetworkIssue) else st
  }

  /** The `except ValueError` clause: it reads `row[1]` to name the row in a
      RuntimeWarning, which itself raises IndexError on a row shorter than two. */
  function BadRow(row: seq<string>): (r: RowEnd)
    ensures r != Next
    ensures r.Crash? <==> |row| < 2
    ensures r.Crash? ==> r.exc == IndexError
    ensures r.Warn? ==> r.problem == row[1]
  {
    if |row| < 2 then Crash(IndexError) else Warn(row[1])
  }

  /** The read-response shape check `"asset" in data and asset_type in data["asset"]`. */
  function HasAsset(data: Json, assetType: string): Result<bool> {
    NestedIn(data, "asset", assetType)
  }

  /** `strip_cascade_object`: the asset's own fields, `data["asset"][asset_type]`.
      The type is a JSON value because the subscriber fan-out takes it from a
      response. */
  function StripAsset(data: Json, assetType: Json): Result<Json> {
    match Key(data, "asset")
    case Raise(e) => Raise(e)
    case Ok(a) => Subscript(a, assetType)
  }

  /** On an object response, the shape check passes and the asset can be
      stripped exactly when `data["asset"]` is an object holding the type. */
  lemma ShapeCheckGuardsStrip(data: Json, assetType: string)
    requires data.JObj?
    ensures (HasAsset(data, assetType) == Ok(true) && StripAsset(data, JStr(assetType)).Ok?) <==>
              ("asset" in data.fields && data.fields["asset"].JObj? && assetType in data.fields["asset"].fields)
    ensures HasAsset(data, assetType) == Ok(false) <==>
              ("asset" !in data.fields || In(assetType, data.fields["asset"]) == Ok(false))
  {
  }

  /** The shape check itself raises TypeError, which no handler catches,
      exactly when `in` is applied to a value that does not support it: a
      `null`, number or boolean body; a list or string body in which
      `"asset"` is found, so that `data["asset"]` is a string subscript; or an
      object whose `asset` is `null`, a number or a boolean. */
  lemma ShapeCheckRaises(data: Json, assetType: string)
    ensures HasAsset(data, assetType).Raise? ==> HasAsset(data, assetType).exc == TypeError
    ensures HasAsset(data, assetType).Raise? <==>
              || data.JNull? || data.JBool? || data.JNum?
              || (data.JArr? && JStr("asset") in data.items)
              || (data.JStr? && IsSubstring("asset", data.s))
              || (data.JObj? && "asset" in data.fields &&
                  (data.fields["asset"].JNull? || data.fields["asset"].JBool? || data.fields["asset"].JNum?))
  {
  }

  /** The body of an edit request: the whole asset, tagged with its type. */
  function EditPayload(assetType: string, asset: Json): Json {
    JObj(map["asset" := JObj(map[assetType := asset])])
  }

  /** The three ways a response can stand towards the success envelope. */
  datatype Verdict = ExplicitSuccess | ExplicitFailure | FieldAbsent

  /** Evaluates `"success" in s and not s["success"]` and says why it came out
      as it did. */
  function Classify(body: Json): Result<Verdict> {
    match In("success", body)
    case Raise(e) => Raise(e)
    case Ok(false) => Ok(FieldAbsent)
    case Ok(true) =>
      match Key(body, "success")
      case Raise(e) => Raise(e)
      case Ok(v) => Ok(if Truthy(v) then ExplicitSuccess else ExplicitFailure)
  }

  /** The check every mutating call's response goes through, together with
      the `s['message']` its failure branch formats into the log: None means
      the call counts as succeeded. */
  function FailureMessage(body: Json): Result<Option<Json>> {
    match Classify(body)
    case Raise(e) => Raise(e)
    case Ok(ExplicitFailure) =>
      (match Key(body, "message")
       case Raise(e) => Raise(e)
       case Ok(m) => Ok(Some(m)))
    case Ok(_) => Ok(None)
  }

  /** The success envelope on an object response: only an explicit falsy
      `success` is a failure; a missing key or a truthy value is success; a
      failure without a `message` raises KeyError while the log line is
      being formatted. */
  lemma SuccessEnvelope(body: Json)
    requires body.JObj?
    ensures Classify(body).Ok?
    ensures Classify(body).value == FieldAbsent <==> "success" !in body.fields
    ensures FailureMessage(body) == Ok(None) <==>
              ("success" !in body.fields || Truthy(body.fields["success"]))
    ensures FailureMessage(body).Ok? && FailureMessage(body).value.Some? <==>
              ("success" in body.fields && !Truthy(body.fields["success"]) && "message" in body.fields)
    ensures FailureMessage(body).Ok? && FailureMessage(body).value.Some? ==>
              FailureMessage(body).value.value == body.fields["message"]
    ensures FailureMessage(body).Raise? ==> FailureMessage(body).exc == KeyError
  {
  }

  /** The success envelope on a body that is not an object. `null`, a number
      or a boolean make `"success" in s` raise TypeError. A string or a list
      answers `in`; when `success` is found, `s["success"]` then raises
      TypeError; when it is not, the call counts as succeeded. */
  lemma SuccessEnvelopeOtherBodies(body: Json)
    requires !body.JObj?
    ensures (body.JNull? || body.JBool? || body.JNum?) ==>
              Classify(body) == Raise(TypeError) && FailureMessage(body) == Raise(TypeError)
    ensures body.JStr? ==>
              FailureMessage(body) == (if IsSubstring("success", body.s) then Raise(TypeError) else Ok(None))
    ensures body.JArr? ==>
              FailureMessage(body) == (if JStr("success") in body.items then Raise(TypeError) else Ok(None))
  {
  }

  /** What one loop iteration does with a row, as a function of the state so far. */
  type RowFn = (State, seq<string>) -> (State, RowEnd)

  function Stopped(end: RowEnd): Status
    requires end != Next
  {
    match end
    case Warn(p) => Warned(p)
    case Crash(e) => Crashed(e)
  }

  /** `for row in reader:` inside one `try` that only RuntimeWarning leaves
      caught: the first row that does not end with Next ends the run. */
  function RunFrom(rowFn: RowFn, st: State, rows: seq<seq<string>>): (State, Status)
    decreases |rows|
  {
    if rows == [] then (st, Completed)
    else
      var (st', end) := rowFn(st, rows[0]);
      if end.Next? then RunFrom(rowFn, st', rows[1..]) else (st', Stopped(end))
  }

  /** Running the rows is running a prefix and then, if it completed, the rest. */
  lemma {:induction false} RunSplit(rowFn: RowFn, st: State, rows: seq<seq<string>>, k: nat)
    requires k <= |rows|
    ensures RunFrom(rowFn, st, rows) ==
              if RunFrom(rowFn, st, rows[..k]).1 == Completed
              then RunFrom(rowFn, RunFrom(rowFn, st, rows[..k]).0, rows[k..])
              else RunFrom(rowFn, st, rows[..k])
    decreases k
  {
    if k == 0 {
      assert rows[..k] == [] && rows[k..] == rows;
    } else {
      assert rows[..k][0] == rows[0];
      assert rows[..k][1..] == rows[1..][..k - 1];
      assert rows[1..][k - 1..] == rows[k..];
      var (st', end) := rowFn(st, rows[0]);
      if end.Next? {
        RunSplit(rowFn, st', rows[1..], k - 1);
      }
    }
  }

  /** A row that ends the run (a RuntimeWarning or an uncaught exception)
      leaves the run's calls and log exactly as that row left them: no later
      row is read, no further call is made. */
  lemma RunStopsAtAbort(rowFn: RowFn, st: State, rows: seq<seq<string>>, k: nat, mid: State)
    requires k < |rows|
    requires RunFrom(rowFn, st, rows[..k]) == (mid, Completed)
    requires rowFn(mid, rows[k]).1 != Next
    ensures RunFrom(rowFn, st, rows) == (rowFn(mid, rows[k]).0, Stopped(rowFn(mid, rows[k]).1))
  {
    RunSplit(rowFn, st, rows, k);
    assert rows[k..][0] == rows[k];
  }

  /** A row that leaves the state as it is and goes on (the header row) can be
      dropped from the input without changing the run. */
  lemma SkippedRowVanishes(rowFn: RowFn, st: State, rows: seq<seq<string>>, k: nat, mid: State)
    requires k < |rows|
    requires RunFrom(rowFn, st, rows[..k]) == (mid, Completed)
    requires rowFn(mid, rows[k]) == (mid, Next)
    ensures RunFrom(rowFn, st, rows) == RunFrom(rowFn, st, rows[..k] + rows[k + 1..])
  {
    var dropped := rows[..k] + rows[k + 1..];
    assert dropped[..k] == rows[..k];
    assert dropped[k..] == rows[k + 1..];
    RunSplit(rowFn, st, rows, k);
    RunSplit(rowFn, st, dropped, k);
    assert rows[k..][0] == rows[k] && rows[k..][1..] == rows[k + 1..];
  }

  /** The run only appends: to the calls issued and to the log. */
  ghost predicate Extends(a: State, b: State) {
    a.trace <= b.trace && a.log <= b.log
  }

  ghost predicate RowsExtend(rowFn: RowFn) {
    forall s, row :: Extends(s, rowFn(s, row).0)
  }

  lemma {:induction false} RunExtends(rowFn: RowFn, st: State, rows: seq<seq<string>>)
    requires RowsExtend(rowFn)
    ensures Extends(st, RunFrom(rowFn, st, rows).0)
    decreases |rows|
  {
    if rows != [] {
      var (st', end) := rowFn(st, rows[0]);
      assert Extends(st, st');
      if end.Next? {
        RunExtends(rowFn, st', rows[1..]);
      }
    }
  }
}
