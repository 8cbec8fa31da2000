/** The sitemap batch (sitemap/sitemap_setter.py): for each CSV row naming an
    asset by id, read the asset and, when its metadata has dynamic fields,
    turn the first value of its first `sitemap` field from 'No' to 'Yes' (for
    an asset marked for publishing) and submit the asset back. The functions
    state what one row does; the methods do it step by step as the script
    does and are proved to agree with them. */
module SitemapSetter {
  import opened PyJson
  import opened Cms

  /** The configuration value the row loop reads (`asset_type`). */
  datatype Config = Config(assetType: string)

  const Header: seq<string> :=
    ["id", "path", "site", "is_published", "has_sitemap_meta", "sitemap_value_current"]

  // ---------------------------------------------------------------------
  // set_sitemap_if_exists (lines 49-61).

  /** `"shouldBePublished" in asset and asset["shouldBePublished"]`. */
  function Eligible(asset: Json): Result<bool> {
    match In("shouldBePublished", asset)
    case Raise(e) => Raise(e)
    case Ok(false) => Ok(false)
    case Ok(true) =>
      match Key(asset, "shouldBePublished")
      case Raise(e) => Raise(e)
      case Ok(flag) => Ok(Truthy(flag))
  }

  /** `field['name'] == "sitemap"`. */
  function IsSitemap(field: Json): Result<bool> {
    match Key(field, "name")
    case Raise(e) => Raise(e)
    case Ok(name) => Ok(name == JStr("sitemap"))
  }

  /** The comprehension of line 53 over `items[i..]`, as the positions of the
      fields it keeps; the first exception any field's test raises. */
  function MatchesFrom(items: seq<Json>, i: nat): (r: Result<seq<nat>>)
    requires i <= |items|
    ensures r.Ok? <==> forall j :: i <= j < |items| ==> IsSitemap(items[j]).Ok?
    ensures r.Ok? ==> forall x :: 0 <= x < |r.value| ==>
                        i <= r.value[x] < |items| && IsSitemap(items[r.value[x]]) == Ok(true)
    ensures r.Ok? ==> forall x, y :: 0 <= x < y < |r.value| ==> r.value[x] < r.value[y]
    decreases |items| - i
  {
    if i == |items| then Ok([])
    else
      match IsSitemap(items[i])
      case Raise(e) => Raise(e)
      case Ok(hit) =>
        match MatchesFrom(items, i + 1)
        case Raise(e) => Raise(e)
        case Ok(rest) => Ok(if hit then [i] + rest else rest)
  }

  /** `[field for field in fields if field['name'] == "sitemap"]`. Iterating
      a non-empty object or string yields strings, and `'...'['name']` raises
      TypeError; a number, boolean or None is not iterable at all. */
  function SitemapMatches(fields: Json): Result<seq<nat>> {
    match fields
    case JArr(items) => MatchesFrom(items, 0)
    case JObj(m) => if m == map[] then Ok([]) else Raise(TypeError)
    case JStr(s) => if s == "" then Ok([]) else Raise(TypeError)
    case _ => Raise(TypeError)
  }

  /** The comprehension keeps every field named "sitemap". */
  lemma {:induction false} MatchesComplete(items: seq<Json>, i: nat, j: nat)
    requires i <= j < |items|
    requires MatchesFrom(items, i).Ok? && IsSitemap(items[j]) == Ok(true)
    ensures j in MatchesFrom(items, i).value
    decreases j - i
  {
    if i < j {
      MatchesComplete(items, i + 1, j);
    }
  }

  /** A failing comprehension raises what the first failing name test raised. */
  lemma {:induction false} MatchesRaiseFirst(items: seq<Json>, i: nat)
    requires i <= |items|
    requires MatchesFrom(items, i).Raise?
    ensures exists j :: i <= j < |items| && IsSitemap(items[j]) == Raise(MatchesFrom(items, i).exc) &&
                        forall l :: i <= l < j ==> IsSitemap(items[l]).Ok?
    decreases |items| - i
  {
    if IsSitemap(items[i]).Ok? {
      MatchesRaiseFirst(items, i + 1);
      var j :| i + 1 <= j < |items| && IsSitemap(items[j]) == Raise(MatchesFrom(items, i + 1).exc) &&
               forall l :: i + 1 <= l < j ==> IsSitemap(items[l]).Ok?;
      assert IsSitemap(items[j]) == Raise(MatchesFrom(items, i).exc);
    } else {
      assert IsSitemap(items[i]) == Raise(MatchesFrom(items, i).exc);
    }
  }

  const FieldsPath: seq<Step> := [Field("metadata"), Field("dynamicFields")]

  /** `asset["metadata"]["dynamicFields"][k]["fieldValues"][0]`, the object
      whose "value" the function reads and sets. */
  function ValueHolder(k: nat): seq<Step> {
    FieldsPath + [Index(k), Field("fieldValues"), Index(0)]
  }

  function SetSitemapIfExists(asset: Json): Result<Json> {
    match Eligible(asset)
    case Raise(e) => Raise(e)
    case Ok(false) =>
      // the message printed on line 60 reads asset['path']
      (match Key(asset, "path")
       case Raise(e) => Raise(e)
       case Ok(_) => Ok(asset))
    case Ok(true) =>
      match Lookup(asset, FieldsPath)
      case Raise(e) => Raise(e)
      case Ok(fields) =>
        match SitemapMatches(fields)
        case Raise(e) => Raise(e)
        case Ok(hits) =>
          if hits == [] then Ok(asset)
          else
            match Lookup(asset, ValueHolder(hits[0]) + [Field("value")])
            case Raise(e) => Raise(e)
            case Ok(value) =>
              if value == JStr("No") then Assign(asset, ValueHolder(hits[0]), "value", JStr("Yes"))
              else Ok(asset)
  }

  /** Field `k` is the first one named "sitemap": every field before it has
      a name, and a different one. */
  predicate FirstSitemapAt(items: seq<Json>, k: nat) {
    && k < |items|
    && IsSitemap(items[k]) == Ok(true)
    && forall j :: 0 <= j < k ==> IsSitemap(items[j]) == Ok(false)
  }

  /** The asset is marked for publishing, and the first value of its first
      sitemap field, field `k`, is 'No'. */
  predicate FlipsAt(asset: Json, k: nat) {
    && Eligible(asset) == Ok(true)
    && Lookup(asset, FieldsPath).Ok?
    && Lookup(asset, FieldsPath).value.JArr?
    && FirstSitemapAt(Lookup(asset, FieldsPath).value.items, k)
    && Lookup(asset, ValueHolder(k) + [Field("value")]) == Ok(JStr("No"))
  }

  lemma FirstSitemapUnique(items: seq<Json>, k: nat, k': nat)
    requires FirstSitemapAt(items, k) && FirstSitemapAt(items, k')
    ensures k == k'
  {
  }

  /** The first of the kept positions is the first sitemap field. */
  lemma FirstHit(items: seq<Json>)
    requires MatchesFrom(items, 0).Ok? && MatchesFrom(items, 0).value != []
    ensures FirstSitemapAt(items, MatchesFrom(items, 0).value[0])
  {
    var hits := MatchesFrom(items, 0).value;
    forall j | 0 <= j < hits[0] ensures IsSitemap(items[j]) == Ok(false) {
      assert IsSitemap(items[j]).Ok?;
      if IsSitemap(items[j]) == Ok(true) {
        MatchesComplete(items, 0, j);
      }
    }
  }

  /** When the function returns, it has changed the asset exactly when the
      asset is marked for publishing and its first sitemap field's first value
      is 'No'; that value is then 'Yes' and every other part of the asset is
      as it was. */
  lemma SitemapSetSpec(asset: Json)
    requires SetSitemapIfExists(asset).Ok?
    ensures SetSitemapIfExists(asset).value != asset <==> exists k :: FlipsAt(asset, k)
    ensures forall k :: FlipsAt(asset, k) ==>
              var r := SetSitemapIfExists(asset).value;
              && Lookup(r, ValueHolder(k) + [Field("value")]) == Ok(JStr("Yes"))
              && forall q :: Plain(q) && Diverge(ValueHolder(k) + [Field("value")], q) ==> Lookup(r, q) == Lookup(asset, q)
  {
    var r := SetSitemapIfExists(asset).value;
    if Eligible(asset) == Ok(true) {
      var fields := Lookup(asset, FieldsPath).value;
      var hits := SitemapMatches(fields).value;
      if hits != [] {
        assert fields.JArr?;
        FirstHit(fields.items);
        var k := hits[0];
        var at := ValueHolder(k) + [Field("value")];
        if Lookup(asset, at) == Ok(JStr("No")) {
          AssignThenLookup(asset, ValueHolder(k), "value", JStr("Yes"));
          assert FlipsAt(asset, k);
          assert Plain(ValueHolder(k));
          forall q | Plain(q) && Diverge(at, q) ensures Lookup(r, q) == Lookup(asset, q) {
            AssignFrame(asset, ValueHolder(k), "value", JStr("Yes"), q);
          }
        }
        forall k' | FlipsAt(asset, k') ensures k' == k {
          FirstSitemapUnique(fields.items, k, k');
        }
      } else {
        forall k' | FlipsAt(asset, k') ensures false {
          MatchesComplete(fields.items, 0, k');
        }
      }
    }
  }

  /** An asset not marked for publishing comes back as it was read, unless it
      has no `path` for the message to print. */
  lemma IneligibleUnchanged(asset: Json)
    requires Eligible(asset) == Ok(false)
    ensures SetSitemapIfExists(asset).Ok? <==> Key(asset, "path").Ok?
    ensures SetSitemapIfExists(asset).Ok? ==> SetSitemapIfExists(asset).value == asset
  {
  }

  /** `IsSitemap` agrees on two field lists position by position, so the
      comprehension keeps the same positions of both. */
  lemma {:induction false} MatchesAgree(a: seq<Json>, b: seq<Json>, i: nat)
    requires |a| == |b| && i <= |a|
    requires forall j :: i <= j < |a| ==> IsSitemap(a[j]) == IsSitemap(b[j])
    ensures MatchesFrom(a, i) == MatchesFrom(b, i)
    decreases |a| - i
  {
    if i < |a| {
      MatchesAgree(a, b, i + 1);
    }
  }

  /** Flipping the value leaves the publishing flag as it was. */
  lemma FlipKeepsEligible(asset: Json, k: nat)
    requires FlipsAt(asset, k)
    requires Assign(asset, ValueHolder(k), "value", JStr("Yes")).Ok?
    ensures Eligible(Assign(asset, ValueHolder(k), "value", JStr("Yes")).value) == Ok(true)
  {
    var r := Assign(asset, ValueHolder(k), "value", JStr("Yes")).value;
    var flag: seq<Step> := [Field("shouldBePublished")];
    assert Plain(ValueHolder(k));
    assert Diverge(ValueHolder(k) + [Field("value")], flag);
    AssignFrame(asset, ValueHolder(k), "value", JStr("Yes"), flag);
    assert asset.JObj?;
    assert ValueHolder(k)[0] == Field("metadata");
    var md := Step1(asset, Field("metadata")).value;
    assert r == Put(asset, Field("metadata"), Assign(md, ValueHolder(k)[1..], "value", JStr("Yes")).value);
    assert r.JObj? && r.fields.Keys == asset.fields.Keys;
  }

  /** Flipping the value leaves every dynamic field with the name it had, so
      the comprehension keeps the same fields. */
  lemma FlipKeepsNames(asset: Json, k: nat)
    requires FlipsAt(asset, k)
    requires Assign(asset, ValueHolder(k), "value", JStr("Yes")).Ok?
    ensures var r := Assign(asset, ValueHolder(k), "value", JStr("Yes")).value;
              Lookup(r, FieldsPath).Ok? &&
              SitemapMatches(Lookup(r, FieldsPath).value) == SitemapMatches(Lookup(asset, FieldsPath).value)
  {
    var items := Lookup(asset, FieldsPath).value.items;
    var tail: seq<Step> := [Index(k), Field("fieldValues"), Index(0)];
    assert ValueHolder(k) == FieldsPath + tail;
    AssignDeep(asset, FieldsPath, tail, "value", JStr("Yes"));
    var inner: seq<Step> := [Field("fieldValues"), Index(0)];
    assert tail[0] == Index(k) && tail[1..] == inner;
    assert Step1(JArr(items), Index(k)) == Ok(items[k]);
    var item' := Assign(items[k], inner, "value", JStr("Yes")).value;
    assert Assign(JArr(items), tail, "value", JStr("Yes")) == Ok(JArr(items[k := item']));
    assert items[k].JObj?;
    assert Step1(items[k], Field("fieldValues")).Ok?;
    assert item' == Put(items[k], Field("fieldValues"), Assign(Step1(items[k], Field("fieldValues")).value, inner[1..], "value", JStr("Yes")).value);
    assert IsSitemap(item') == IsSitemap(items[k]);
    MatchesAgree(items, items[k := item'], 0);
  }

  /** Setting the sitemap a second time changes nothing. */
  lemma SitemapIdempotent(asset: Json)
    requires SetSitemapIfExists(asset).Ok?
    ensures SetSitemapIfExists(SetSitemapIfExists(asset).value) == SetSitemapIfExists(asset)
  {
    var r := SetSitemapIfExists(asset).value;
    SitemapSetSpec(asset);
    if r != asset {
      var k: nat :| FlipsAt(asset, k);
      var items := Lookup(asset, FieldsPath).value.items;
      FirstHit(items);
      MatchesComplete(items, 0, k);
      FirstSitemapUnique(items, k, MatchesFrom(items, 0).value[0]);
      assert r == Assign(asset, ValueHolder(k), "value", JStr("Yes")).value;
      FlipKeepsEligible(asset, k);
      FlipKeepsNames(asset, k);
      AssignThenLookup(asset, ValueHolder(k), "value", JStr("Yes"));
    }
  }

  // ---------------------------------------------------------------------
  // What one row does (lines 71-114).

  /** The body of the row loop for one row. */
  function SitemapRow(cfg: Config, oracle: Oracle, st: State, row: seq<string>): (State, RowEnd) {
    if row == Header then (st, Next)
    else if |row| != 6 then (st, BadRow(row))       // unpacking raises ValueError
    else
      var (st1, resp) := Issue(oracle, st, ReadCall(cfg, row[0]));
      match resp
      case Body(data) =>
        (match HasAsset(data, cfg.assetType)
         case Raise(e) => (st1, Crash(e))
         case Ok(false) => (Write(st1, ParseError(row[1], data)), Next)
         case Ok(true) =>
           match StripAsset(data, JStr(cfg.assetType))
           case Raise(e) => (st1, Crash(e))
           case Ok(asset) => EditStep(cfg, oracle, st1, row[1], asset))
      case _ => (RequestFailed(st1, resp), Next)
  }

  function ReadCall(cfg: Config, id: string): Call {
    ReadById(JStr(cfg.assetType), id)
  }

  /** Lines 94-106: when the asset's metadata has dynamic fields, set the
      sitemap and submit the asset; a failed edit is only logged. */
  function EditStep(cfg: Config, oracle: Oracle, st: State, path: string, asset: Json): (State, RowEnd) {
    match NestedIn(asset, "metadata", "dynamicFields")
    case Raise(e) => (st, Crash(e))
    case Ok(false) => (st, Next)
    case Ok(true) =>
      match SetSitemapIfExists(asset)
      case Raise(e) => (st, Crash(e))
      case Ok(updated) =>
        var (st1, resp) := Issue(oracle, st, Edit(EditPayload(cfg.assetType, updated)));
        match resp
        case Body(status) =>
          (match FailureMessage(status)
           case Raise(e) => (st1, Crash(e))
           case Ok(Some(m)) => (Write(st1, EditFailed(path, m)), Next)
           case Ok(None) => (Write(st1, Updated(path)), Next))
        case _ => (RequestFailed(st1, resp), Next)
  }

  function Row(cfg: Config, oracle: Oracle): RowFn {
    (st: State, row: seq<string>) => SitemapRow(cfg, oracle, st, row)
  }

  // ---------------------------------------------------------------------
  // Properties of a row.

  /** The header row is passed over with no call and no log line from any
      state, and dropping it from the input changes nothing about the run,
      whether or not the run gets that far. */
  lemma HeaderRowSkipped(cfg: Config, oracle: Oracle, st: State, rows: seq<seq<string>>, k: nat)
    requires k < |rows| && rows[k] == Header
    ensures SitemapRow(cfg, oracle, st, Header) == (st, Next)
    ensures RunFrom(Row(cfg, oracle), st, rows) ==
              RunFrom(Row(cfg, oracle), st, rows[..k] + rows[k + 1..])
  {
    var pre := RunFrom(Row(cfg, oracle), st, rows[..k]);
    if pre.1 == Completed {
      assert Row(cfg, oracle)(pre.0, rows[k]) == (pre.0, Next);
      SkippedRowVanishes(Row(cfg, oracle), st, rows, k, pre.0);
    } else {
      var dropped := rows[..k] + rows[k + 1..];
      assert dropped[..k] == rows[..k];
      RunSplit(Row(cfg, oracle), st, rows, k);
      RunSplit(Row(cfg, oracle), st, dropped, k);
    }
  }

  /** A row that is not the header and has any number of cells but six makes
      no call and writes no line; it ends the run with a RuntimeWarning
      naming `row[1]`, or with an IndexError on a row shorter than two; a
      six-cell row never ends the run with a warning. */
  lemma RowWidth(cfg: Config, oracle: Oracle, st: State, row: seq<string>)
    requires row != Header
    ensures |row| != 6 ==>
              SitemapRow(cfg, oracle, st, row) ==
                (st, if |row| < 2 then Crash(IndexError) else Warn(row[1]))
    ensures |row| == 6 ==> !SitemapRow(cfg, oracle, st, row).1.Warn?
  {
  }

  /** A read response for which the shape check comes out false costs
      exactly the read call and one error line naming the row's path; no
      edit follows. */
  lemma UnparsableReadSkipsRow(cfg: Config, oracle: Oracle, st: State, row: seq<string>, data: Json)
    requires |row| == 6 && row != Header
    requires oracle(|st.trace|, ReadCall(cfg, row[0])) == Body(data)
    requires HasAsset(data, cfg.assetType) == Ok(false)
    ensures SitemapRow(cfg, oracle, st, row) ==
              (State(st.trace + [ReadCall(cfg, row[0])], st.log + [ParseError(row[1], data)]), Next)
  {
  }

  /** A read response on which the shape check itself raises (see
      `ShapeCheckRaises`) costs the read call, writes no line, and ends the
      run with that TypeError. */
  lemma ShapeCheckCrashEndsRun(cfg: Config, oracle: Oracle, st: State, row: seq<string>, data: Json)
    requires |row| == 6 && row != Header
    requires oracle(|st.trace|, ReadCall(cfg, row[0])) == Body(data)
    requires HasAsset(data, cfg.assetType).Raise?
    ensures SitemapRow(cfg, oracle, st, row) ==
              (State(st.trace + [ReadCall(cfg, row[0])], st.log), Crash(TypeError))
  {
    ShapeCheckRaises(data, cfg.assetType);
  }

  /** The asset is submitted exactly when its metadata has dynamic fields
      (and setting the sitemap raised nothing), and then as a single edit
      carrying the updated asset; otherwise the row ends with no call and no
      line. A submitted edit never ends the run: its failure is only logged. */
  lemma EditIffDynamicFields(cfg: Config, oracle: Oracle, st: State, path: string, asset: Json)
    ensures var (st', end) := EditStep(cfg, oracle, st, path, asset);
              |st'.trace| > |st.trace| <==>
                NestedIn(asset, "metadata", "dynamicFields") == Ok(true) && SetSitemapIfExists(asset).Ok?
    ensures var (st', end) := EditStep(cfg, oracle, st, path, asset);
              NestedIn(asset, "metadata", "dynamicFields") == Ok(true) && SetSitemapIfExists(asset).Ok? ==>
                st'.trace == st.trace + [Edit(EditPayload(cfg.assetType, SetSitemapIfExists(asset).value))]
    ensures var (st', end) := EditStep(cfg, oracle, st, path, asset);
              NestedIn(asset, "metadata", "dynamicFields") == Ok(false) ==> (st', end) == (st, Next)
    ensures !EditStep(cfg, oracle, st, path, asset).1.Warn?
  {
  }

  /** A failed edit is logged with the response's message and the run goes on. */
  lemma EditFailureNotFatal(cfg: Config, oracle: Oracle, st: State, path: string,
                            asset: Json, updated: Json, status: Json, m: Json)
    requires NestedIn(asset, "metadata", "dynamicFields") == Ok(true)
    requires SetSitemapIfExists(asset) == Ok(updated)
    requires oracle(|st.trace|, Edit(EditPayload(cfg.assetType, updated))) == Body(status)
    requires FailureMessage(status) == Ok(Some(m))
    ensures EditStep(cfg, oracle, st, path, asset) ==
              (State(st.trace + [Edit(EditPayload(cfg.assetType, updated))], st.log + [EditFailed(path, m)]), Next)
  {
  }

  /** Every row only appends to the calls and the log. */
  lemma SitemapRowsExtend(cfg: Config, oracle: Oracle)
    ensures RowsExtend(Row(cfg, oracle))
  {
  }

  // ---------------------------------------------------------------------
  // The script, step by step.

  /** The body of the row loop (lines 71-114). */
  method ProcessRow(cfg: Config, oracle: Oracle, st0: State, row: seq<string>) returns (st: State, end: RowEnd)
    ensures (st, end) == SitemapRow(cfg, oracle, st0, row)
  {
    st, end := st0, Next;
    if row == Header {
      return;
    }
    if |row| != 6 {
      end := BadRow(row);
      return;
    }
    var id, path := row[0], row[1];
    var sent := Issue(oracle, st, ReadCall(cfg, id));
    st := sent.0;
    if !sent.1.Body? {
      st := RequestFailed(st, sent.1);
      return;
    }
    var data := sent.1.json;
    var shaped := HasAsset(data, cfg.assetType);
    if shaped.Raise? {
      end := Crash(shaped.exc);
      return;
    }
    if !shaped.value {
      st := Write(st, ParseError(path, data));
      return;
    }
    var asset := StripAsset(data, JStr(cfg.assetType));
    if asset.Raise? {
      end := Crash(asset.exc);
      return;
    }
    var hasFields := NestedIn(asset.value, "metadata", "dynamicFields");
    if hasFields.Raise? {
      end := Crash(hasFields.exc);
      return;
    }
    if !hasFields.value {
      return;
    }
    var updated := SetSitemapIfExists(asset.value);
    if updated.Raise? {
      end := Crash(updated.exc);
      return;
    }
    sent := Issue(oracle, st, Edit(EditPayload(cfg.assetType, updated.value)));
    st := sent.0;
    if !sent.1.Body? {
      st := RequestFailed(st, sent.1);
      return;
    }
    var failure := FailureMessage(sent.1.json);
    if failure.Raise? {
      end := Crash(failure.exc);
      return;
    }
    if failure.value.Some? {
      st := Write(st, EditFailed(path, failure.value.value));
    } else {
      st := Write(st, Updated(path));
    }
  }

  /** The whole script after start-up: the "Running" line, then the row loop
      inside the single `try` whose only handler is for RuntimeWarning. */
  method Run(cfg: Config, oracle: Oracle, rows: seq<seq<string>>) returns (st: State, status: Status)
    ensures (st, status) == RunFrom(Row(cfg, oracle), Initial(), rows)
  {
    st := Initial();
    for i := 0 to |rows|
      invariant RunFrom(Row(cfg, oracle), st, rows[i..]) == RunFrom(Row(cfg, oracle), Initial(), rows)
    {
      assert rows[i..][0] == rows[i] && rows[i..][1..] == rows[i + 1..];
      var end;
      st, end := ProcessRow(cfg, oracle, st, rows[i]);
      if !end.Next? {
        status := Stopped(end);
        return;
      }
    }
    status := Completed;
  }
}
