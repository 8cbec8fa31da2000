/** The image rename batch (image_rename/renaming_script.py): for each CSV row
    `img_path, new_name`, read the image, rename its display name, move it to
    its new name, publish it, and publish every subscriber that is marked for
    publishing. The functions state what one row does; the methods do it step
    by step as the script does and are proved to agree with them. */
module ImageRename {
  import opened PyJson
  import opened Cms
  import opened Destination

  /** The configuration values the script reads (`cascade_site`, `asset_type`). */
  datatype Config = Config(site: string, assetType: string)

  const Header: seq<string> := ["destination_path", "newname"]

  /** The body of the move request (lines 103-116). */
  function MoveParameters(parent: string, site: string, newName: string): Json {
    JObj(map[
      "moveParameters" := JObj(map[
        "destinationContainerIdentifier" := JObj(map[
          "path" := JObj(map["path" := JStr(parent), "siteName" := JStr(site)]),
          "type" := JStr("folder")]),
        "doWorkflow" := JBool(false),
        "newName" := JStr(newName),
        "unpublish" := JBool(true)])])
  }

  const DisplayNamePath: seq<Step> := [Field("metadata"), Field("displayName")]

  /** Lines 85-86: when `"metadata" in asset and "displayName" in
      asset["metadata"]`, the asset with `asset['metadata']['displayName']`
      set to the new name; None when the test fails. */
  function DisplayNameEdit(asset: Json, newName: string): Result<Option<Json>> {
    match NestedIn(asset, "metadata", "displayName")
    case Raise(e) => Raise(e)
    case Ok(false) => Ok(None)
    case Ok(true) =>
      match Assign(asset, [Field("metadata")], "displayName", JStr(newName))
      case Raise(e) => Raise(e)
      case Ok(edited) => Ok(Some(edited))
  }

  /** An edit is prepared exactly when the asset has a metadata object with a
      displayName; it sets displayName to the new name and leaves every other
      part of the asset as it was read. */
  lemma DisplayNameEditSpec(asset: Json, newName: string)
    ensures (DisplayNameEdit(asset, newName).Ok? && DisplayNameEdit(asset, newName).value.Some?) <==>
              (Lookup(asset, [Field("metadata")]).Ok? &&
               Lookup(asset, [Field("metadata")]).value.JObj? &&
               "displayName" in Lookup(asset, [Field("metadata")]).value.fields)
    ensures DisplayNameEdit(asset, newName).Ok? && DisplayNameEdit(asset, newName).value.Some? ==>
              var edited := DisplayNameEdit(asset, newName).value.value;
              && Lookup(edited, DisplayNamePath) == Ok(JStr(newName))
              && forall q :: Plain(q) && Diverge(DisplayNamePath, q) ==> Lookup(edited, q) == Lookup(asset, q)
  {
    var mdPath := [Field("metadata")];
    assert mdPath + [Field("displayName")] == DisplayNamePath;
    AssignSucceeds(asset, mdPath, "displayName", JStr(newName));
    assert mdPath[1..] == [];
    if DisplayNameEdit(asset, newName).Ok? && DisplayNameEdit(asset, newName).value.Some? {
      AssignThenLookup(asset, mdPath, "displayName", JStr(newName));
      assert Plain(mdPath);
      forall q | Plain(q) && Diverge(DisplayNamePath, q)
        ensures Lookup(DisplayNameEdit(asset, newName).value.value, q) == Lookup(asset, q)
      {
        AssignFrame(asset, mdPath, "displayName", JStr(newName), q);
      }
    }
  }

  // ---------------------------------------------------------------------
  // What one row does (lines 58-200), stage by stage.

  /** The row loop's body for one row. */
  function RenameRow(cfg: Config, oracle: Oracle, st: State, row: seq<string>): (State, RowEnd) {
    if row == Header then (st, Next)
    else if |row| != 2 then (st, BadRow(row))            // unpacking raises ValueError
    else
      match ComputeTarget(row[0], row[1])
      case None => (st, BadRow(row))                      // rindex raises ValueError
      case Some(t) => ReadStep(cfg, oracle, st, row[0], t)
  }

  function ReadCall(cfg: Config, imgPath: string): Call {
    Read(JStr(cfg.assetType), cfg.site, JStr(imgPath))
  }

  /** Lines 75-83: read the image and check the response's shape. */
  function ReadStep(cfg: Config, oracle: Oracle, st: State, imgPath: string, t: Target): (State, RowEnd) {
    var (st1, resp) := Issue(oracle, st, ReadCall(cfg, imgPath));
    match resp
    case Body(data) =>
      (match HasAsset(data, cfg.assetType)
       case Raise(e) => (st1, Crash(e))
       case Ok(false) => (Write(st1, ParseError(imgPath, data)), Next)
       case Ok(true) =>
         match StripAsset(data, JStr(cfg.assetType))
         case Raise(e) => (st1, Crash(e))
         case Ok(asset) => EditStep(cfg, oracle, st1, imgPath, t, asset))
    case _ => (RequestFailed(st1, resp), Next)
  }

  /** Lines 85-101: the display-name edit, whose failure is only logged. */
  function EditStep(cfg: Config, oracle: Oracle, st: State, imgPath: string, t: Target, asset: Json): (State, RowEnd) {
    match DisplayNameEdit(asset, t.newName)
    case Raise(e) => (st, Crash(e))
    case Ok(None) => MoveStep(cfg, oracle, Write(st, DisplayNameMissing(imgPath)), imgPath, t)
    case Ok(Some(edited)) =>
      var (st1, resp) := Issue(oracle, st, Edit(EditPayload(cfg.assetType, edited)));
      match resp
      case Body(status) =>
        (match FailureMessage(status)
         case Raise(e) => (st1, Crash(e))
         case Ok(Some(m)) => MoveStep(cfg, oracle, Write(st1, EditFailed(imgPath, m)), imgPath, t)
         case Ok(None) => MoveStep(cfg, oracle, Write(st1, DisplayNameRenamed(imgPath, t.newName)), imgPath, t))
      case _ => (RequestFailed(st1, resp), Next)
  }

  function MoveCall(cfg: Config, imgPath: string, t: Target): Call {
    Move(JStr(cfg.assetType), cfg.site, JStr(imgPath), MoveParameters(t.parent, cfg.site, t.newName))
  }

  /** Lines 103-130: move and rename; a failure raises RuntimeError. */
  function MoveStep(cfg: Config, oracle: Oracle, st: State, imgPath: string, t: Target): (State, RowEnd) {
    var (st1, resp) := Issue(oracle, st, MoveCall(cfg, imgPath, t));
    match resp
    case Body(status) =>
      (match FailureMessage(status)
       case Raise(e) => (st1, Crash(e))
       case Ok(Some(m)) => (Write(st1, MoveFailed(imgPath, m)), Crash(RuntimeError))
       case Ok(None) => PublishStep(cfg, oracle, Write(st1, Moved(imgPath, t.newName)), t))
    case _ => (RequestFailed(st1, resp), Next)
  }

  function PublishCall(cfg: Config, t: Target): Call {
    Publish(JStr(cfg.assetType), cfg.site, JStr(t.newPath))
  }

  /** Lines 133-143: publish the image at its new path; a failure raises RuntimeError. */
  function PublishStep(cfg: Config, oracle: Oracle, st: State, t: Target): (State, RowEnd) {
    var (st1, resp) := Issue(oracle, st, PublishCall(cfg, t));
    match resp
    case Body(status) =>
      (match FailureMessage(status)
       case Raise(e) => (st1, Crash(e))
       case Ok(Some(m)) => (Write(st1, PublishFailed(t.newPath, m)), Crash(RuntimeError))
       case Ok(None) => SubscribersStep(cfg, oracle, Write(st1, Published(t.newPath)), t))
    case _ => (RequestFailed(st1, resp), Next)
  }

  function ListCall(cfg: Config, t: Target): Call {
    ListSubscribers(JStr(cfg.assetType), cfg.site, JStr(t.newPath))
  }

  /** Lines 146-165: list the subscribers of the new path; a failure raises
      RuntimeError, an empty list ends the row. */
  function SubscribersStep(cfg: Config, oracle: Oracle, st: State, t: Target): (State, RowEnd) {
    var (st1, resp) := Issue(oracle, st, ListCall(cfg, t));
    match resp
    case Body(result) =>
      (match FailureMessage(result)
       case Raise(e) => (st1, Crash(e))
       case Ok(Some(m)) => (Write(st1, SubscribersFailed(t.newPath, m)), Crash(RuntimeError))
       case Ok(None) =>
         var st2 := Write(st1, PublishingRelated(t.newPath));
         match Key(result, "subscribers")
         case Raise(e) => (st2, Crash(e))
         case Ok(subs) =>
           match Len(subs)
           case Raise(e) => (st2, Crash(e))
           case Ok(n) =>
             if n == 0 then (Write(st2, NoOtherAssets), Next)
             else
               match subs
               case JArr(rels) => FanOut(cfg, oracle, st2, rels)
               // iterating a non-empty object or string yields strings, and
               // `'...'['path']` raises TypeError on the first of them
               case _ => (st2, Crash(TypeError)))
    case _ => (RequestFailed(st1, resp), Next)
  }

  /** How one subscriber ends: on to the next one, or the whole row ends. */
  datatype Flow = Proceed | Stop(end: RowEnd)

  /** Lines 166-191, for one subscriber. A network or JSON failure ends the
      row (the handlers sit outside the subscriber loop). */
  function Subscriber(cfg: Config, oracle: Oracle, st: State, rel: Json): (State, Flow) {
    match Lookup(rel, [Field("path"), Field("path")])
    case Raise(e) => (st, Stop(Crash(e)))
    case Ok(path) =>
      match Key(rel, "type")
      case Raise(e) => (st, Stop(Crash(e)))
      case Ok(ty) =>
        var (st1, resp) := Issue(oracle, st, Read(ty, cfg.site, path));
        match resp
        case Body(raw) =>
          (match StripAsset(raw, ty)
           case Raise(e) => (st1, Stop(Crash(e)))
           case Ok(record) =>
             match Get(record, "shouldBePublished")
             case Raise(e) => (st1, Stop(Crash(e)))
             case Ok(flag) =>
               if !Truthy(flag) then (Write(st1, SubscriberSkipped(path)), Proceed)
               else
                 var (st2, resp2) := Issue(oracle, st1, Publish(ty, cfg.site, path));
                 match resp2
                 case Body(status) =>
                   (match FailureMessage(status)
                    case Raise(e) => (st2, Stop(Crash(e)))
                    case Ok(Some(m)) => (Write(st2, SubscriberPublishFailed(path, m)), Stop(Crash(RuntimeError)))
                    case Ok(None) => (Write(st2, SubscriberPublished(path)), Proceed))
                 case _ => (RequestFailed(st2, resp2), Stop(Next)))
        case _ => (RequestFailed(st1, resp), Stop(Next))
  }

  /** `for relation_object in relationships_result["subscribers"]:` */
  function FanOut(cfg: Config, oracle: Oracle, st: State, rels: seq<Json>): (State, RowEnd)
    decreases |rels|
  {
    if rels == [] then (st, Next)
    else
      var (st1, flow) := Subscriber(cfg, oracle, st, rels[0]);
      match flow
      case Proceed => FanOut(cfg, oracle, st1, rels[1..])
      case Stop(end) => (st1, end)
  }

  function Row(cfg: Config, oracle: Oracle): RowFn {
    (st: State, row: seq<string>) => RenameRow(cfg, oracle, st, row)
  }

  // ---------------------------------------------------------------------
  // The script, step by step.

  /** The subscriber loop (lines 165-191). */
  method PublishSubscribers(cfg: Config, oracle: Oracle, st0: State, rels: seq<Json>) returns (st: State, end: RowEnd)
    ensures (st, end) == FanOut(cfg, oracle, st0, rels)
  {
    st, end := st0, Next;
    for i := 0 to |rels|
      invariant FanOut(cfg, oracle, st, rels[i..]) == FanOut(cfg, oracle, st0, rels)
    {
      assert rels[i..][0] == rels[i] && rels[i..][1..] == rels[i + 1..];
      var rel := rels[i];
      var path := Lookup(rel, [Field("path"), Field("path")]);
      if path.Raise? {
        end := Crash(path.exc);
        return;
      }
      var ty := Key(rel, "type");
      if ty.Raise? {
        end := Crash(ty.exc);
        return;
      }
      var sent := Issue(oracle, st, Read(ty.value, cfg.site, path.value));
      st := sent.0;
      if !sent.1.Body? {
        st := RequestFailed(st, sent.1);
        return;
      }
      var record := StripAsset(sent.1.json, ty.value);
      if record.Raise? {
        end := Crash(record.exc);
        return;
      }
      var flag := Get(record.value, "shouldBePublished");
      if flag.Raise? {
        end := Crash(flag.exc);
        return;
      }
      if !Truthy(flag.value) {
        st := Write(st, SubscriberSkipped(path.value));
        continue;
      }
      sent := Issue(oracle, st, Publish(ty.value, cfg.site, path.value));
      st := sent.0;
      if !sent.1.Body? {
        st := RequestFailed(st, sent.1);
        return;
      }
      var failure := FailureMessage(sent.1.json);
      if failure.Raise? {
        end := Crash(failure.exc);
        return;
      }
      if failure.value.Some? {
        st := Write(st, SubscriberPublishFailed(path.value, failure.value.value));
        end := Crash(RuntimeError);
        return;
      }
      st := Write(st, SubscriberPublished(path.value));
    }
  }

  /** Lines 103-191: move, publish, list the subscribers and publish them. */
  method MovePublishAndFanOut(cfg: Config, oracle: Oracle, st0: State, imgPath: string, t: Target)
    returns (st: State, end: RowEnd)
    ensures (st, end) == MoveStep(cfg, oracle, st0, imgPath, t)
  {
    st, end := st0, Next;
    var sent := Issue(oracle, st, MoveCall(cfg, imgPath, t));
    st := sent.0;
    if !sent.1.Body? {
      st := RequestFailed(st, sent.1);
      return;
    }
    var failure := FailureMessage(sent.1.json);
    if failure.Raise? {
      end := Crash(failure.exc);
      return;
    }
    if failure.value.Some? {
      st := Write(st, MoveFailed(imgPath, failure.value.value));
      end := Crash(RuntimeError);
      return;
    }
    st := Write(st, Moved(imgPath, t.newName));

    sent := Issue(oracle, st, PublishCall(cfg, t));
    st := sent.0;
    if !sent.1.Body? {
      st := RequestFailed(st, sent.1);
      return;
    }
    failure := FailureMessage(sent.1.json);
    if failure.Raise? {
      end := Crash(failure.exc);
      return;
    }
    if failure.value.Some? {
      st := Write(st, PublishFailed(t.newPath, failure.value.value));
      end := Crash(RuntimeError);
      return;
    }
    st := Write(st, Published(t.newPath));

    sent := Issue(oracle, st, ListCall(cfg, t));
    st := sent.0;
    if !sent.1.Body? {
      st := RequestFailed(st, sent.1);
      return;
    }
    var result := sent.1.json;
    failure := FailureMessage(result);
    if failure.Raise? {
      end := Crash(failure.exc);
      return;
    }
    if failure.value.Some? {
      st := Write(st, SubscribersFailed(t.newPath, failure.value.value));
      end := Crash(RuntimeError);
      return;
    }
    st := Write(st, PublishingRelated(t.newPath));
    var subs := Key(result, "subscribers");
    if subs.Raise? {
      end := Crash(subs.exc);
      return;
    }
    var n := Len(subs.value);
    if n.Raise? {
      end := Crash(n.exc);
      return;
    }
    if n.value == 0 {
      st := Write(st, NoOtherAssets);
      return;
    }
    if !subs.value.JArr? {
      end := Crash(TypeError);
      return;
    }
    st, end := PublishSubscribers(cfg, oracle, st, subs.value.items);
  }

  /** The body of the row loop (lines 59-200). */
  method ProcessRow(cfg: Config, oracle: Oracle, st0: State, row: seq<string>) returns (st: State, end: RowEnd)
    ensures (st, end) == RenameRow(cfg, oracle, st0, row)
  {
    st, end := st0, Next;
    if row == Header {
      return;
    }
    if |row| != 2 {
      end := BadRow(row);
      return;
    }
    var imgPath, newName := row[0], row[1];
    var target := ComputeTarget(imgPath, newName);
    if target.None? {
      end := BadRow(row);
      return;
    }
    var t := target.value;

    var sent := Issue(oracle, st, ReadCall(cfg, imgPath));
    st := sent.0;
    if !sent.1.Body? {
      st := RequestFailed(st, sent.1);
      return;
    }
    var data := sent.1.json;
    var shaped := HasAsset(data, cfg.assetType);
    if shaped.Raise? {
      end := Crash(shaped.exc);
      return;
    }
    if !shaped.value {
      st := Write(st, ParseError(imgPath, data));
      return;
    }
    var asset := StripAsset(data, JStr(cfg.assetType));
    if asset.Raise? {
      end := Crash(asset.exc);
      return;
    }

    var edited := DisplayNameEdit(asset.value, t.newName);
    if edited.Raise? {
      end := Crash(edited.exc);
      return;
    }
    if edited.value.Some? {
      sent := Issue(oracle, st, Edit(EditPayload(cfg.assetType, edited.value.value)));
      st := sent.0;
      if !sent.1.Body? {
        st := RequestFailed(st, sent.1);
        return;
      }
      var failure := FailureMessage(sent.1.json);
      if failure.Raise? {
        end := Crash(failure.exc);
        return;
      }
      if failure.value.Some? {
        st := Write(st, EditFailed(imgPath, failure.value.value));
      } else {
        st := Write(st, DisplayNameRenamed(imgPath, t.newName));
      }
    } else {
      st := Write(st, DisplayNameMissing(imgPath));
    }
    st, end := MovePublishAndFanOut(cfg, oracle, st, imgPath, t);
  }

  /** The whole script after start-up: the "Running" line, then the row loop
      inside the single `try` whose only handler is for RuntimeWarning. */
  method Run(cfg: Config, oracle: Oracle, rows: seq<seq<string>>) returns (st: State, status: Status)
    ensures (st, status) == RunFrom(Row(cfg, oracle), Initial(), rows)
  {
    st := Initial();
    for i := 0 to |rows|
      invariant RunFrom(Row(cfg, oracle), st, rows[i..]) == RunFrom(Row(cfg, oracle), Initial(), rows)
    {
      assert rows[i..][0] == rows[i] && rows[i..][1..] == rows[i + 1..];
      var end;
      st, end := ProcessRow(cfg, oracle, st, rows[i]);
      if !end.Next? {
        status := Stopped(end);
        return;
      }
    }
    status := Completed;
  }

  // ---------------------------------------------------------------------
  // Properties of a row.

  /** The header row is passed over with no call and no log line from any
      state, and dropping it from the input changes nothing about the run,
      whether or not the run gets that far. */
  lemma HeaderRowSkipped(cfg: Config, oracle: Oracle, st: State, rows: seq<seq<string>>, k: nat)
    requires k < |rows| && rows[k] == Header
    ensures RenameRow(cfg, oracle, st, Header) == (st, Next)
    ensures RunFrom(Row(cfg, oracle), st, rows) ==
              RunFrom(Row(cfg, oracle), st, rows[..k] + rows[k + 1..])
  {
    var pre := RunFrom(Row(cfg, oracle), st, rows[..k]);
    if pre.1 == Completed {
      assert Row(cfg, oracle)(pre.0, rows[k]) == (pre.0, Next);
      SkippedRowVanishes(Row(cfg, oracle), st, rows, k, pre.0);
    } else {
      var dropped := rows[..k] + rows[k + 1..];
      assert dropped[..k] == rows[..k];
      RunSplit(Row(cfg, oracle), st, rows, k);
      RunSplit(Row(cfg, oracle), st, dropped, k);
    }
  }

  /** A row of the wrong length, or whose path has no '/', makes no call and
      writes no line; it ends the run with a RuntimeWarning naming `row[1]`,
      or with an IndexError when the row has fewer than two cells. */
  lemma MalformedRowEndsRun(cfg: Config, oracle: Oracle, st: State, row: seq<string>)
    requires row != Header
    requires |row| != 2 || '/' !in row[0]
    ensures RenameRow(cfg, oracle, st, row).0 == st
    ensures RenameRow(cfg, oracle, st, row).1 == (if |row| < 2 then Crash(IndexError) else Warn(row[1]))
  {
    if |row| == 2 {
      TargetShape(row[0], row[1]);
    }
  }

  /** A read response for which the shape check comes out false costs
      exactly the read call and one error line; no edit, move or publish
      follows, and the run goes on. */
  lemma UnparsableReadSkipsRow(cfg: Config, oracle: Oracle, st: State, row: seq<string>, data: Json)
    requires |row| == 2 && row != Header && '/' in row[0]
    requires oracle(|st.trace|, ReadCall(cfg, row[0])) == Body(data)
    requires HasAsset(data, cfg.assetType) == Ok(false)
    ensures RenameRow(cfg, oracle, st, row) ==
              (State(st.trace + [ReadCall(cfg, row[0])], st.log + [ParseError(row[0], data)]), Next)
  {
    TargetShape(row[0], row[1]);
  }

  /** No call after the edit step is an edit. */
  /** A read response on which the shape check itself raises (see
      `ShapeCheckRaises`) costs the read call, writes no line, and ends the
      run with that TypeError. */
  lemma ShapeCheckCrashEndsRun(cfg: Config, oracle: Oracle, st: State, row: seq<string>, data: Json)
    requires |row| == 2 && row != Header && '/' in row[0]
    requires oracle(|st.trace|, ReadCall(cfg, row[0])) == Body(data)
    requires HasAsset(data, cfg.assetType).Raise?
    ensures RenameRow(cfg, oracle, st, row) ==
              (State(st.trace + [ReadCall(cfg, row[0])], st.log), Crash(TypeError))
  {
    TargetShape(row[0], row[1]);
    ShapeCheckRaises(data, cfg.assetType);
  }

  ghost predicate NoEditSince(a: State, b: State) {
    Extends(a, b) && forall j :: |a.trace| <= j < |b.trace| ==> !b.trace[j].Edit?
  }

  lemma NoEditSinceTrans(a: State, b: State, c: State)
    requires NoEditSince(a, b) && NoEditSince(b, c)
    ensures NoEditSince(a, c)
  {
    forall j | |a.trace| <= j < |c.trace| ensures !c.trace[j].Edit? {
      if j < |b.trace| {
        assert c.trace[j] == b.trace[j];
      }
    }
  }

  lemma {:induction false} FanOutIssuesNoEdit(cfg: Config, oracle: Oracle, st: State, rels: seq<Json>)
    ensures NoEditSince(st, FanOut(cfg, oracle, st, rels).0)
    decreases |rels|
  {
    if rels != [] {
      var (st1, flow) := Subscriber(cfg, oracle, st, rels[0]);
      assert NoEditSince(st, st1);
      if flow.Proceed? {
        FanOutIssuesNoEdit(cfg, oracle, st1, rels[1..]);
        NoEditSinceTrans(st, st1, FanOut(cfg, oracle, st1, rels[1..]).0);
      }
    }
  }

  /** From the move on, the row's first call is the move and no later call is an edit. */
  lemma MoveStepShape(cfg: Config, oracle: Oracle, st: State, imgPath: string, t: Target)
    ensures var r := MoveStep(cfg, oracle, st, imgPath, t).0;
              && NoEditSince(st, r)
              && |r.trace| > |st.trace|
              && r.trace[|st.trace|] == MoveCall(cfg, imgPath, t)
  {
    var (st1, resp) := Issue(oracle, st, MoveCall(cfg, imgPath, t));
    if resp.Body? && FailureMessage(resp.json) == Ok(None) {
      var st2 := Write(st1, Moved(imgPath, t.newName));
      var (st3, resp3) := Issue(oracle, st2, PublishCall(cfg, t));
      if resp3.Body? && FailureMessage(resp3.json) == Ok(None) {
        var st4 := Write(st3, Published(t.newPath));
        var (st5, resp5) := Issue(oracle, st4, ListCall(cfg, t));
        if resp5.Body? && FailureMessage(resp5.json) == Ok(None) {
          var st6 := Write(st5, PublishingRelated(t.newPath));
          var subs := Key(resp5.json, "subscribers");
          if subs.Ok? && subs.value.JArr? {
            FanOutIssuesNoEdit(cfg, oracle, st6, subs.value.items);
            assert NoEditSince(st, st6);
            NoEditSinceTrans(st, st6, FanOut(cfg, oracle, st6, subs.value.items).0);
          }
        }
      }
    }
  }

  /** The row issues an edit exactly when the asset has metadata.displayName,
      and then as its first call after the read, carrying the asset with the
      new display name (DisplayNameEditSpec says what else it holds). */
  lemma EditIssuedIffDisplayName(cfg: Config, oracle: Oracle, st: State, imgPath: string, t: Target, asset: Json)
    ensures var r := EditStep(cfg, oracle, st, imgPath, t, asset).0;
              && Extends(st, r)
              && ((exists j :: |st.trace| <= j < |r.trace| && r.trace[j].Edit?) <==>
                    (DisplayNameEdit(asset, t.newName).Ok? && DisplayNameEdit(asset, t.newName).value.Some?))
    ensures DisplayNameEdit(asset, t.newName).Ok? && DisplayNameEdit(asset, t.newName).value.Some? ==>
              var r := EditStep(cfg, oracle, st, imgPath, t, asset).0;
              r.trace[|st.trace|] == Edit(EditPayload(cfg.assetType, DisplayNameEdit(asset, t.newName).value.value))
  {
    var r := EditStep(cfg, oracle, st, imgPath, t, asset).0;
    match DisplayNameEdit(asset, t.newName)
    case Raise(e) =>
    case Ok(None) =>
      MoveStepShape(cfg, oracle, Write(st, DisplayNameMissing(imgPath)), imgPath, t);
    case Ok(Some(edited)) =>
      var (st1, resp) := Issue(oracle, st, Edit(EditPayload(cfg.assetType, edited)));
      if resp.Body? && FailureMessage(resp.json).Ok? {
        var st2 := if FailureMessage(resp.json).value.Some?
                   then Write(st1, EditFailed(imgPath, FailureMessage(resp.json).value.value))
                   else Write(st1, DisplayNameRenamed(imgPath, t.newName));
        MoveStepShape(cfg, oracle, st2, imgPath, t);
      }
      assert r.trace[|st.trace|].Edit?;
  }

  /** A failed edit is logged and the move is issued all the same. */
  lemma EditFailureNotFatal(cfg: Config, oracle: Oracle, st: State, imgPath: string, t: Target,
                            asset: Json, edited: Json, status: Json, m: Json)
    requires DisplayNameEdit(asset, t.newName) == Ok(Some(edited))
    requires oracle(|st.trace|, Edit(EditPayload(cfg.assetType, edited))) == Body(status)
    requires FailureMessage(status) == Ok(Some(m))
    ensures var after := State(st.trace + [Edit(EditPayload(cfg.assetType, edited))], st.log + [EditFailed(imgPath, m)]);
              && EditStep(cfg, oracle, st, imgPath, t, asset) == MoveStep(cfg, oracle, after, imgPath, t)
              && |EditStep(cfg, oracle, st, imgPath, t, asset).0.trace| > |st.trace| + 1
              && EditStep(cfg, oracle, st, imgPath, t, asset).0.trace[|st.trace| + 1] == MoveCall(cfg, imgPath, t)
  {
    var after := State(st.trace + [Edit(EditPayload(cfg.assetType, edited))], st.log + [EditFailed(imgPath, m)]);
    assert Write(Issue(oracle, st, Edit(EditPayload(cfg.assetType, edited))).0, EditFailed(imgPath, m)) == after;
    assert EditStep(cfg, oracle, st, imgPath, t, asset) == MoveStep(cfg, oracle, after, imgPath, t);
    MoveStepShape(cfg, oracle, after, imgPath, t);
  }

  /** A failed move, primary publish, or subscriber listing is logged and
      raises RuntimeError: the row issues nothing after it (and by
      RunStopsAtAbort, neither does the run). */
  lemma PrimaryFailuresAreFatal(cfg: Config, oracle: Oracle, st: State, imgPath: string, t: Target, m: Json)
    ensures var n := |st.trace|;
            var r1 := oracle(n, MoveCall(cfg, imgPath, t));
            r1.Body? && FailureMessage(r1.json) == Ok(Some(m)) ==>
              MoveStep(cfg, oracle, st, imgPath, t) ==
                (State(st.trace + [MoveCall(cfg, imgPath, t)], st.log + [MoveFailed(imgPath, m)]), Crash(RuntimeError))
    ensures var n := |st.trace|;
            var r1 := oracle(n, MoveCall(cfg, imgPath, t));
            var r2 := oracle(n + 1, PublishCall(cfg, t));
            r1.Body? && FailureMessage(r1.json) == Ok(None) && r2.Body? && FailureMessage(r2.json) == Ok(Some(m)) ==>
              MoveStep(cfg, oracle, st, imgPath, t) ==
                (State(st.trace + [MoveCall(cfg, imgPath, t), PublishCall(cfg, t)],
                       st.log + [Moved(imgPath, t.newName), PublishFailed(t.newPath, m)]), Crash(RuntimeError))
    ensures var n := |st.trace|;
            var r1 := oracle(n, MoveCall(cfg, imgPath, t));
            var r2 := oracle(n + 1, PublishCall(cfg, t));
            var r3 := oracle(n + 2, ListCall(cfg, t));
            r1.Body? && FailureMessage(r1.json) == Ok(None) && r2.Body? && FailureMessage(r2.json) == Ok(None) &&
            r3.Body? && FailureMessage(r3.json) == Ok(Some(m)) ==>
              MoveStep(cfg, oracle, st, imgPath, t) ==
                (State(st.trace + [MoveCall(cfg, imgPath, t), PublishCall(cfg, t), ListCall(cfg, t)],
                       st.log + [Moved(imgPath, t.newName), Published(t.newPath), SubscribersFailed(t.newPath, m)]),
                 Crash(RuntimeError))
  {
    assert st.trace + [MoveCall(cfg, imgPath, t)] + [PublishCall(cfg, t)] ==
           st.trace + [MoveCall(cfg, imgPath, t), PublishCall(cfg, t)];
    assert st.log + [Moved(imgPath, t.newName)] + [PublishFailed(t.newPath, m)] ==
           st.log + [Moved(imgPath, t.newName), PublishFailed(t.newPath, m)];
    assert st.trace + [MoveCall(cfg, imgPath, t)] + [PublishCall(cfg, t)] + [ListCall(cfg, t)] ==
           st.trace + [MoveCall(cfg, imgPath, t), PublishCall(cfg, t), ListCall(cfg, t)];
    assert st.log + [Moved(imgPath, t.newName)] + [Published(t.newPath)] + [SubscribersFailed(t.newPath, m)] ==
           st.log + [Moved(imgPath, t.newName), Published(t.newPath), SubscribersFailed(t.newPath, m)];
  }

  /** An empty subscriber list is logged and ends the row with no further publish. */
  lemma NoSubscribersEndsRow(cfg: Config, oracle: Oracle, st: State, t: Target, result: Json, subs: Json)
    requires oracle(|st.trace|, ListCall(cfg, t)) == Body(result)
    requires FailureMessage(result) == Ok(None)
    requires Key(result, "subscribers") == Ok(subs)
    requires Len(subs) == Ok(0)
    ensures SubscribersStep(cfg, oracle, st, t) ==
              (State(st.trace + [ListCall(cfg, t)], st.log + [PublishingRelated(t.newPath), NoOtherAssets]), Next)
  {
    assert st.log + [PublishingRelated(t.newPath)] + [NoOtherAssets] ==
           st.log + [PublishingRelated(t.newPath), NoOtherAssets];
  }

  // ---------------------------------------------------------------------
  // Properties of the subscriber fan-out.

  /** The subscriber read was answered with a record marked for publishing. */
  ghost predicate EligibleAnswer(resp: Response, ty: Json) {
    && resp.Body?
    && StripAsset(resp.json, ty).Ok?
    && Get(StripAsset(resp.json, ty).value, "shouldBePublished").Ok?
    && Truthy(Get(StripAsset(resp.json, ty).value, "shouldBePublished").value)
  }

  /** Every publish from position `from` on comes right after a read of the
      same asset whose answer marked it for publishing. */
  ghost predicate PublishesVetted(oracle: Oracle, trace: seq<Call>, from: nat) {
    forall j :: from <= j < |trace| && trace[j].Publish? ==>
      && from < j
      && trace[j - 1] == Read(trace[j].assetType, trace[j].site, trace[j].path)
      && EligibleAnswer(oracle(j - 1, trace[j - 1]), trace[j].assetType)
  }

  /** A subscriber whose record has a falsy `shouldBePublished` is logged as
      skipped, is not published, and the loop goes on to the next one. */
  lemma IneligibleSubscriberSkipped(cfg: Config, oracle: Oracle, st: State, rel: Json,
                                    path: Json, ty: Json, raw: Json, record: Json)
    requires Lookup(rel, [Field("path"), Field("path")]) == Ok(path)
    requires Key(rel, "type") == Ok(ty)
    requires oracle(|st.trace|, Read(ty, cfg.site, path)) == Body(raw)
    requires StripAsset(raw, ty) == Ok(record)
    requires Get(record, "shouldBePublished").Ok? && !Truthy(Get(record, "shouldBePublished").value)
    ensures Subscriber(cfg, oracle, st, rel) ==
              (State(st.trace + [Read(ty, cfg.site, path)], st.log + [SubscriberSkipped(path)]), Proceed)
  {
  }

  /** A subscriber whose record has a truthy `shouldBePublished` is published
      right after it is read: success is logged and the loop goes on; a
      failure is logged and raises RuntimeError, ending the row. */
  lemma EligibleSubscriberPublished(cfg: Config, oracle: Oracle, st: State, rel: Json,
                                    path: Json, ty: Json, raw: Json, record: Json, status: Json)
    requires Lookup(rel, [Field("path"), Field("path")]) == Ok(path)
    requires Key(rel, "type") == Ok(ty)
    requires oracle(|st.trace|, Read(ty, cfg.site, path)) == Body(raw)
    requires StripAsset(raw, ty) == Ok(record)
    requires Get(record, "shouldBePublished").Ok? && Truthy(Get(record, "shouldBePublished").value)
    requires oracle(|st.trace| + 1, Publish(ty, cfg.site, path)) == Body(status)
    requires FailureMessage(status).Ok?
    ensures Subscriber(cfg, oracle, st, rel).0.trace == st.trace + [Read(ty, cfg.site, path), Publish(ty, cfg.site, path)]
    ensures FailureMessage(status).value.None? ==>
              Subscriber(cfg, oracle, st, rel).0.log == st.log + [SubscriberPublished(path)] &&
              Subscriber(cfg, oracle, st, rel).1 == Proceed
    ensures FailureMessage(status).value.Some? ==>
              Subscriber(cfg, oracle, st, rel).0.log == st.log + [SubscriberPublishFailed(path, FailureMessage(status).value.value)] &&
              Subscriber(cfg, oracle, st, rel).1 == Stop(Crash(RuntimeError))
  {
    assert st.trace + [Read(ty, cfg.site, path)] + [Publish(ty, cfg.site, path)] ==
           st.trace + [Read(ty, cfg.site, path), Publish(ty, cfg.site, path)];
  }

  /** Every subscriber of `rels`, taken in list order from `st`, let the loop
      go on, and together they brought the state to `mid`. */
  ghost predicate ProceedsThrough(cfg: Config, oracle: Oracle, st: State, rels: seq<Json>, mid: State)
    decreases |rels|
  {
    if rels == [] then mid == st
    else
      && Subscriber(cfg, oracle, st, rels[0]).1.Proceed?
      && ProceedsThrough(cfg, oracle, Subscriber(cfg, oracle, st, rels[0]).0, rels[1..], mid)
  }

  /** Subscribers are handled in list order: when the ones before position `k`
      all let the loop go on and subscriber `k` ends the row (a failed publish
      raises RuntimeError, a network failure ends the row), the fan-out ends
      exactly there, and no later subscriber is read or published. */
  lemma {:induction false} FanOutStopsAt(cfg: Config, oracle: Oracle, st: State, rels: seq<Json>, k: nat, mid: State)
    requires k < |rels|
    requires ProceedsThrough(cfg, oracle, st, rels[..k], mid)
    requires Subscriber(cfg, oracle, mid, rels[k]).1.Stop?
    ensures FanOut(cfg, oracle, st, rels) ==
              (Subscriber(cfg, oracle, mid, rels[k]).0, Subscriber(cfg, oracle, mid, rels[k]).1.end)
    decreases k
  {
    if k > 0 {
      var st1 := Subscriber(cfg, oracle, st, rels[0]).0;
      assert rels[..k][0] == rels[0];
      assert rels[..k][1..] == rels[1..][..k - 1];
      FanOutStopsAt(cfg, oracle, st1, rels[1..], k - 1, mid);
    }
  }

  /** When every subscriber lets the loop go on, the fan-out ends the row
      normally in the state the last one left. */
  lemma {:induction false} FanOutCompletes(cfg: Config, oracle: Oracle, st: State, rels: seq<Json>, mid: State)
    requires ProceedsThrough(cfg, oracle, st, rels, mid)
    ensures FanOut(cfg, oracle, st, rels) == (mid, Next)
    decreases |rels|
  {
    if rels != [] {
      FanOutCompletes(cfg, oracle, Subscriber(cfg, oracle, st, rels[0]).0, rels[1..], mid);
    }
  }

  /** The fan-out publishes only subscribers whose freshly read record is
      marked for publishing, each right after reading it. */
  lemma {:induction false} FanOutPublishesOnlyEligible(cfg: Config, oracle: Oracle, st: State, rels: seq<Json>)
    ensures Extends(st, FanOut(cfg, oracle, st, rels).0)
    ensures PublishesVetted(oracle, FanOut(cfg, oracle, st, rels).0.trace, |st.trace|)
    decreases |rels|
  {
    if rels != [] {
      var (st1, flow) := Subscriber(cfg, oracle, st, rels[0]);
      assert Extends(st, st1);
      assert PublishesVetted(oracle, st1.trace, |st.trace|);
      if flow.Proceed? {
        var fin := FanOut(cfg, oracle, st1, rels[1..]).0;
        FanOutPublishesOnlyEligible(cfg, oracle, st1, rels[1..]);
        forall j | |st.trace| <= j < |fin.trace| && fin.trace[j].Publish?
          ensures |st.trace| < j
          ensures fin.trace[j - 1] == Read(fin.trace[j].assetType, fin.trace[j].site, fin.trace[j].path)
          ensures EligibleAnswer(oracle(j - 1, fin.trace[j - 1]), fin.trace[j].assetType)
        {
          if j < |st1.trace| {
            assert fin.trace[j] == st1.trace[j];
            assert st1.trace[j].Publish?;
            assert fin.trace[j - 1] == st1.trace[j - 1];
          }
        }
      }
    }
  }

  /** Every row only appends to the calls and the log, so the log file of a
      run is written strictly forwards. */
  lemma RenameRowsExtend(cfg: Config, oracle: Oracle)
    ensures RowsExtend(Row(cfg, oracle))
  {
    forall st: State, row: seq<string> ensures Extends(st, Row(cfg, oracle)(st, row).0) {
      if row != Header && |row| == 2 && ComputeTarget(row[0], row[1]).Some? {
        var t := ComputeTarget(row[0], row[1]).value;
        var (st1, resp) := Issue(oracle, st, ReadCall(cfg, row[0]));
        if resp.Body? && HasAsset(resp.json, cfg.assetType) == Ok(true) && StripAsset(resp.json, JStr(cfg.assetType)).Ok? {
          EditIssuedIffDisplayName(cfg, oracle, st1, row[0], t, StripAsset(resp.json, JStr(cfg.assetType)).value);
        }
      }
    }
  }

  /** When the move, the publish and the subscriber listing all succeed and
      the list is empty, the row issues exactly those three calls, logs the
      move, the publish, the related-assets line and that there is nothing
      else to publish, and goes on to the next row. */
  lemma MoveAcceptedNoSubscribers(cfg: Config, oracle: Oracle, st: State, imgPath: string, t: Target)
    requires var n := |st.trace|;
             && oracle(n, MoveCall(cfg, imgPath, t)).Body?
             && FailureMessage(oracle(n, MoveCall(cfg, imgPath, t)).json) == Ok(None)
             && oracle(n + 1, PublishCall(cfg, t)).Body?
             && FailureMessage(oracle(n + 1, PublishCall(cfg, t)).json) == Ok(None)
             && oracle(n + 2, ListCall(cfg, t)).Body?
             && FailureMessage(oracle(n + 2, ListCall(cfg, t)).json) == Ok(None)
             && Key(oracle(n + 2, ListCall(cfg, t)).json, "subscribers") == Ok(JArr([]))
    ensures MoveStep(cfg, oracle, st, imgPath, t) ==
              (State(st.trace + [MoveCall(cfg, imgPath, t), PublishCall(cfg, t), ListCall(cfg, t)],
                     st.log + [Moved(imgPath, t.newName), Published(t.newPath), PublishingRelated(t.newPath), NoOtherAssets]),
               Next)
  {
    assert st.trace + [MoveCall(cfg, imgPath, t)] + [PublishCall(cfg, t)] + [ListCall(cfg, t)] ==
           st.trace + [MoveCall(cfg, imgPath, t), PublishCall(cfg, t), ListCall(cfg, t)];
    assert st.log + [Moved(imgPath, t.newName)] + [Published(t.newPath)] + [PublishingRelated(t.newPath)] + [NoOtherAssets] ==
           st.log + [Moved(imgPath, t.newName), Published(t.newPath), PublishingRelated(t.newPath), NoOtherAssets];
  }

  /** A row whose read finds a display name, and whose edit, move, publish
      and (empty) subscriber listing all succeed, issues exactly those five
      calls in that order, logs the rename, the move, the publish, the
      related-assets line and that there is nothing else to publish, and the
      run goes on to the next row. */
  lemma RenamedAndPublished(cfg: Config, oracle: Oracle, st: State, row: seq<string>, t: Target,
                            data: Json, asset: Json, edited: Json)
    requires |row| == 2 && row != Header
    requires ComputeTarget(row[0], row[1]) == Some(t)
    requires oracle(|st.trace|, ReadCall(cfg, row[0])) == Body(data)
    requires HasAsset(data, cfg.assetType) == Ok(true) && StripAsset(data, JStr(cfg.assetType)) == Ok(asset)
    requires DisplayNameEdit(asset, t.newName) == Ok(Some(edited))
    requires var edit := oracle(|st.trace| + 1, Edit(EditPayload(cfg.assetType, edited)));
             edit.Body? && FailureMessage(edit.json) == Ok(None)
    requires var n := |st.trace| + 2;
             && oracle(n, MoveCall(cfg, row[0], t)).Body?
             && FailureMessage(oracle(n, MoveCall(cfg, row[0], t)).json) == Ok(None)
             && oracle(n + 1, PublishCall(cfg, t)).Body?
             && FailureMessage(oracle(n + 1, PublishCall(cfg, t)).json) == Ok(None)
             && oracle(n + 2, ListCall(cfg, t)).Body?
             && FailureMessage(oracle(n + 2, ListCall(cfg, t)).json) == Ok(None)
             && Key(oracle(n + 2, ListCall(cfg, t)).json, "subscribers") == Ok(JArr([]))
    ensures RenameRow(cfg, oracle, st, row) ==
              (State(st.trace + [ReadCall(cfg, row[0]), Edit(EditPayload(cfg.assetType, edited)),
                                 MoveCall(cfg, row[0], t), PublishCall(cfg, t), ListCall(cfg, t)],
                     st.log + [DisplayNameRenamed(row[0], t.newName), Moved(row[0], t.newName), Published(t.newPath),
                               PublishingRelated(t.newPath), NoOtherAssets]),
               Next)
  {
    var edit := Edit(EditPayload(cfg.assetType, edited));
    var mid := State(st.trace + [ReadCall(cfg, row[0]), edit], st.log + [DisplayNameRenamed(row[0], t.newName)]);
    assert st.trace + [ReadCall(cfg, row[0])] + [edit] == mid.trace;
    assert RenameRow(cfg, oracle, st, row) == MoveStep(cfg, oracle, mid, row[0], t);
    MoveAcceptedNoSubscribers(cfg, oracle, mid, row[0], t);
    assert mid.trace + [MoveCall(cfg, row[0], t), PublishCall(cfg, t), ListCall(cfg, t)] ==
           st.trace + [ReadCall(cfg, row[0]), edit, MoveCall(cfg, row[0], t), PublishCall(cfg, t), ListCall(cfg, t)];
    assert mid.log + [Moved(row[0], t.newName), Published(t.newPath), PublishingRelated(t.newPath), NoOtherAssets] ==
           st.log + [DisplayNameRenamed(row[0], t.newName), Moved(row[0], t.newName), Published(t.newPath),
                     PublishingRelated(t.newPath), NoOtherAssets];
  }
}
