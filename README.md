# CMS batch scripts — a Dafny model

Two batch scripts drive a Cascade CMS through its REST API, one CSV row at a
time:

- `image_rename/renaming_script.py` renames images. For each row
  `destination_path, newname` it:
  - reads the image;
  - sets `metadata.displayName` to the new name (when there is one) and
    submits an edit;
  - moves the image to `<parent>/<newname><suffix>`;
  - publishes it at its new path;
  - lists its subscribers and publishes every one whose freshly read record
    has a truthy `shouldBePublished`.
- `sitemap/sitemap_setter.py` sets the sitemap metadata. For each six-column
  row it reads the asset by id. When the asset's metadata has `dynamicFields`,
  it turns the first value of the first field named `sitemap` from `No` to
  `Yes` (for an asset marked for publishing) and submits the asset back.

The model has five modules:

- `PyJson` (`pyjson.dfy`) models the values Python's `json` module produces.
  It also models the Python operations the scripts apply to them:
  - `in`, subscripting with its negative indices, and `.get`;
  - `len` and truthiness;
  - item assignment through a reference chain (`Assign`). Parsed JSON shares
    no sub-objects, so updating in place and rebuilding the path are the
    same thing.

  Every operation returns the exception Python would raise (`KeyError`,
  `TypeError`, `IndexError`, `AttributeError`) when the value has the wrong
  shape.
- `Cms` (`cms.dfy`) holds what both scripts share:
  - the CMS calls;
  - the CMS as an *oracle*: a function from the call's position in the run
    and the call itself to its response (a network failure, a body that is
    not JSON, or a JSON body);
  - the log events;
  - the success-envelope rule;
  - the loop over the rows with its single `RuntimeWarning` handler.

  A run's observable behaviour is the calls it issues, the log lines it
  writes, and how it ends: completed, stopped by a `RuntimeWarning`, or
  crashed by an uncaught exception.
- `Destination` (`destination.dfy`) holds the path arithmetic of the rename.
- `ImageRename` (`rename.dfy`) and `SitemapSetter` (`sitemap.dfy`) hold the
  scripts themselves. Each module has two layers, proved to agree:
  - functions that state what one row does, stage by stage;
  - methods that do it step by step, with the row loop and the subscriber
    loop as `for` loops.

Some of the code's behaviour is easy to miss; the model follows the code:

- A row with fewer than two cells does not end in a `RuntimeWarning`. The
  `ValueError` handler reads `row[1]` and so raises `IndexError`.
- A path without `/` also ends the rename batch with a `RuntimeWarning`,
  because `rindex` raises `ValueError`.
- A body that is not JSON writes no log line; it is only printed.
- The read response's shape check can itself raise. On a `null`, number or
  boolean body, on a list or string body in which `"asset"` is found, and on
  an object whose `asset` is `null`, a number or a boolean, `in` raises
  `TypeError`. Nothing catches it, so the whole batch crashes.
- The subscriber read response gets no shape check. A response without
  `asset[type]` raises `KeyError`, or `TypeError` when the body or its
  `asset` is not an object; nothing catches either.
- A network failure during the fan-out ends the whole row. The handlers sit
  outside the subscriber loop.
- A successful rename whose subscriber list is empty also logs the
  "Publishing related asset to" line.
- The success check `"success" in s and not s["success"]` expects an object.
  On `null`, a number or a boolean it raises `TypeError`. On a string it is a
  substring test and on a list a membership test; when either finds
  `success`, `s["success"]` raises `TypeError`, and otherwise the call counts
  as succeeded.
- The "Network issue occurred" line is written without a line break, so in
  the log file it runs into the next line.
- A sitemap asset not marked for publishing is still submitted. Printing its
  message reads `asset['path']`, which raises `KeyError` when the asset has
  no path.

## Model

| member | source | states |
|---|---|---|
| PyJson.Truthy | image_rename/renaming_script.py:176 | no contract of its own; Python's `bool()`: None, False, 0, the empty string, list and object are false; it decides `not s["success"]` and the `shouldBePublished` tests; characterised by `Cms.SuccessEnvelope`, `ImageRename.IneligibleSubscriberSkipped`, `ImageRename.EligibleSubscriberPublished` and `SitemapSetter.SitemapSetSpec` |
| PyJson.IsSubstring | image_rename/renaming_script.py:96 | no contract of its own; Python's `in` on two strings; characterised by `Cms.SuccessEnvelopeOtherBodies` |
| PyJson.IntIndex | image_rename/renaming_script.py:175 | no contract of its own; the integer an index expression stands for, with `True` as 1 and `False` as 0; its range is stated by `PyJson.Position` |
| PyJson.Position | sitemap/sitemap_setter.py:56 | Python index `i` on a sequence of length `len` is valid exactly when `-len <= i < len`, and then denotes `i` or `len + i` |
| PyJson.In | image_rename/renaming_script.py:80 | no contract of its own; Python's `in`: a key test on a dict, membership on a list, a substring test on a string, `TypeError` otherwise; characterised by `Cms.ShapeCheckGuardsStrip` and `Cms.SuccessEnvelopeOtherBodies` |
| PyJson.NestedIn | image_rename/renaming_script.py:80 | no contract of its own; `a in j and b in j[a]`, evaluating `j[a]` only when the first test holds; also the tests at lines 85 of the rename script and 89 and 94 of the sitemap script; characterised by `Cms.ShapeCheckGuardsStrip`, `ImageRename.DisplayNameEditSpec` and `SitemapSetter.EditIffDynamicFields` |
| PyJson.Subscript | image_rename/renaming_script.py:166-167 | no contract of its own; Python's `[]`: a present key on a dict, an int index within `Position`'s range on a list or string; characterised by `PyJson.Position` and `PyJson.LookupAppend` |
| PyJson.Key | sitemap/sitemap_setter.py:52 | no contract of its own; `container[k]` with a string key; characterised by `PyJson.LookupAppend` and `Cms.SuccessEnvelope` |
| PyJson.Get | image_rename/renaming_script.py:176 | no contract of its own; `.get` gives None for a missing key and raises `AttributeError` off a dict; characterised by `ImageRename.IneligibleSubscriberSkipped` and `ImageRename.EligibleSubscriberPublished` |
| PyJson.Len | image_rename/renaming_script.py:161 | no contract of its own; `len` of a list, object or string; characterised by `ImageRename.NoSubscribersEndsRow` |
| PyJson.Lookup | sitemap/sitemap_setter.py:56 | no contract of its own; evaluates a chain of subscripts with the first exception on the way; characterised by `PyJson.LookupAppend` and `PyJson.AssignThenLookup` |
| PyJson.Assign | sitemap/sitemap_setter.py:58 | no contract of its own; item assignment at the end of a chain of subscripts; characterised by `PyJson.AssignSucceeds`, `PyJson.AssignThenLookup`, `PyJson.AssignFrame` and `PyJson.AssignDeep` |
| PyJson.SetItem | image_rename/renaming_script.py:86 | item assignment succeeds exactly on a dictionary and otherwise raises `TypeError`; it adds or overwrites that key and keeps every other key's value |
| PyJson.AssignSucceeds | image_rename/renaming_script.py:86 | `root[path][k] = v` succeeds exactly when the chain `root[path]` evaluates to a dictionary; otherwise it raises the chain's own exception, or `TypeError` when the chain reaches something other than a dictionary |
| PyJson.StringsAreImmutable | sitemap/sitemap_setter.py:58 | an assignment through any chain starting at a string raises |
| PyJson.AssignThenLookup | image_rename/renaming_script.py:86 | after `root[path][k] = v`, reading `root[path][k]` gives `v` |
| PyJson.AssignFrame | sitemap/sitemap_setter.py:58 | after `root[path][k] = v`, every chain that parts from `path + [k]` (with no negative index) reads what it read before |
| PyJson.LookupAppend | sitemap/sitemap_setter.py:52-56 | reading along `p + q` is reading `q` from what `p` reaches, with the first exception on the way |
| PyJson.AssignDeep | sitemap/sitemap_setter.py:56-58 | after `root[p + q][k] = v`, what `p` reaches is what assigning along `q` makes of what `p` reached before |
| Cms.Initial | image_rename/renaming_script.py:52 | no contract of its own; the run before any row: no call and the start line alone; also sitemap_setter.py line 64; the state `ImageRename.Run` and `SitemapSetter.Run` start from |
| Cms.Issue | image_rename/renaming_script.py:75-79 | no contract of its own; a session call appended to the calls and answered by the oracle at its position; characterised by `ImageRename.RenameRowsExtend`, `SitemapSetter.SitemapRowsExtend` and the exact-trace lemmas such as `ImageRename.RenamedAndPublished` |
| Cms.Write | image_rename/renaming_script.py:81 | no contract of its own; `log_file.write` appending one line; characterised by `ImageRename.RenameRowsExtend`, `SitemapSetter.SitemapRowsExtend` and the exact-log lemmas such as `ImageRename.RenamedAndPublished` |
| Cms.RequestFailed | image_rename/renaming_script.py:193-197 | a network failure adds one "Network issue" line and a non-JSON body adds none; neither adds a call |
| Cms.BadRow | image_rename/renaming_script.py:198-200 | a row the `ValueError` handler sees ends the run: with `IndexError` exactly when it has fewer than two cells, and otherwise with a `RuntimeWarning` naming `row[1]` |
| Cms.HasAsset | image_rename/renaming_script.py:80 | no contract of its own; the read-response shape check; characterised by `Cms.ShapeCheckGuardsStrip` |
| Cms.StripAsset | image_rename/renaming_script.py:46-47 | no contract of its own; `strip_cascade_object`; characterised by `Cms.ShapeCheckGuardsStrip` |
| Cms.EditPayload | image_rename/renaming_script.py:87 | no contract of its own; the edit body `{"asset": {asset_type: asset}}`, also sitemap_setter.py line 96; the edit call of `ImageRename.EditIssuedIffDisplayName` and `SitemapSetter.EditIffDynamicFields` carries it |
| Cms.Classify | image_rename/renaming_script.py:126 | no contract of its own; evaluates the success check; characterised by `Cms.SuccessEnvelope` and `Cms.SuccessEnvelopeOtherBodies` |
| Cms.FailureMessage | image_rename/renaming_script.py:126-127 | no contract of its own; the success check with the `message` its failure branch logs; characterised by `Cms.SuccessEnvelope` and `Cms.SuccessEnvelopeOtherBodies` |
| Cms.RunFrom | image_rename/renaming_script.py:58-202 | no contract of its own; the fold of the row loop with its `RuntimeWarning` handler; characterised by `Cms.RunSplit`, `Cms.RunStopsAtAbort`, `Cms.SkippedRowVanishes` and `Cms.RunExtends` |
| Cms.Stopped | image_rename/renaming_script.py:201-202 | no contract of its own; how a row that ends the run ends it: a `RuntimeWarning` is caught by the outer handler (sitemap_setter.py lines 115-116 too) and any other exception crashes the script; characterised by `Cms.RunStopsAtAbort` |
| Cms.ShapeCheckGuardsStrip | image_rename/renaming_script.py:80-83 | on an object response, the shape check passes and `strip_cascade_object` succeeds exactly when `data["asset"]` is an object holding the asset type; the check fails exactly when `asset` is missing or does not contain the type |
| Cms.ShapeCheckRaises | image_rename/renaming_script.py:80 | the shape check raises exactly on a `null`, number or boolean body, a list or string body in which `"asset"` is found, or an object whose `asset` is `null`, a number or a boolean; what it raises is always `TypeError` |
| Cms.SuccessEnvelope | image_rename/renaming_script.py:126-130 | on an object body, a call failed only when `success` is present and falsy; a missing key or a truthy value is success; a failure with no `message` raises `KeyError` while its log line is formatted |
| Cms.SuccessEnvelopeOtherBodies | image_rename/renaming_script.py:186-187 | on `null`, a number or a boolean the success check raises `TypeError`; on a string or a list it raises `TypeError` when `success` is found by `in` and otherwise counts the call as succeeded |
| Cms.RunSplit | image_rename/renaming_script.py:58-59 | running the rows is running a prefix and, if that completed, the rest from where it left off |
| Cms.RunStopsAtAbort | image_rename/renaming_script.py:198-202 | the first row that ends with a warning or an uncaught exception ends the run; no later row issues a call or writes a line |
| Cms.SkippedRowVanishes | sitemap/sitemap_setter.py:73-74 | a row that leaves the state unchanged and continues can be removed from the input without changing the run |
| Cms.RunExtends | image_rename/renaming_script.py:51-205 | when every row only appends, the whole run only appends to the calls and the log |
| Destination.RFind | image_rename/renaming_script.py:71 | `rfind` gives -1 or an index holding the character, with no later occurrence |
| Destination.SliceFrom | image_rename/renaming_script.py:71 | no contract of its own; Python's `s[j:]` with a negative `j` counted from the end; characterised by `Destination.SuffixFromOriginal` |
| Destination.Suffix | image_rename/renaming_script.py:71 | no contract of its own; the appended tail; characterised by `Destination.SuffixFromOriginal` |
| Destination.ComputeTarget | image_rename/renaming_script.py:69-73 | no contract of its own; the parent, the new name and the new path; characterised by `Destination.TargetShape`, `Destination.ParentPreserved`, `Destination.ExtensionPreserved` and `Destination.TargetExamples` |
| Destination.SuffixFromOriginal | image_rename/renaming_script.py:71 | the appended suffix is the original path from its last `.`; with no `.`, it is the path's last character alone |
| Destination.TargetShape | image_rename/renaming_script.py:69-73 | there is no target exactly when the path holds no `/`; otherwise the parent is the path up to its last `/`, the name is the new name plus the original suffix, and the new path is `parent/name` |
| Destination.ParentPreserved | image_rename/renaming_script.py:69-73 | the new path has the original parent folder, provided the new name with the original suffix appended holds no `/` |
| Destination.ExtensionPreserved | image_rename/renaming_script.py:71-73 | if the original's last `.` comes after its last `/` and the new name has no `.`, the new path ends in the original extension |
| Destination.TargetExamples | image_rename/renaming_script.py:69-73 | `images/photo.JPG` + `cover` gives `images/cover.JPG`; `img/photo` + `new` gives `img/newo`; `photo.png` has no target |
| ImageRename.MoveParameters | image_rename/renaming_script.py:103-116 | no contract of its own; the move body: destination folder path and site, no workflow, the new name, and unpublish; the move call of `ImageRename.PrimaryFailuresAreFatal` and `ImageRename.RenamedAndPublished` carries it |
| ImageRename.ReadCall | image_rename/renaming_script.py:75-78 | no contract of its own; the read of the image by type, site and path; the first call of `ImageRename.UnparsableReadSkipsRow` and `ImageRename.RenamedAndPublished` |
| ImageRename.MoveCall | image_rename/renaming_script.py:119-123 | no contract of its own; the move of the image with `MoveParameters`; named by `ImageRename.EditFailureNotFatal` and `ImageRename.PrimaryFailuresAreFatal` |
| ImageRename.PublishCall | image_rename/renaming_script.py:133-136 | no contract of its own; the publish of the image at its new path; named by `ImageRename.PrimaryFailuresAreFatal` |
| ImageRename.ListCall | image_rename/renaming_script.py:146-149 | no contract of its own; the subscriber listing of the new path; named by `ImageRename.PrimaryFailuresAreFatal` and `ImageRename.NoSubscribersEndsRow` |
| ImageRename.DisplayNameEdit | image_rename/renaming_script.py:85-86 | no contract of its own; the display-name test and assignment; characterised by `ImageRename.DisplayNameEditSpec` |
| ImageRename.RenameRow | image_rename/renaming_script.py:59-200 | no contract of its own; one rename row; characterised by `ImageRename.ProcessRow`, `ImageRename.HeaderRowSkipped`, `ImageRename.MalformedRowEndsRun`, `ImageRename.RenamedAndPublished` and `ImageRename.RenameRowsExtend` |
| ImageRename.ReadStep | image_rename/renaming_script.py:75-83 | no contract of its own; the read and its shape check; characterised by `ImageRename.UnparsableReadSkipsRow` |
| ImageRename.EditStep | image_rename/renaming_script.py:85-101 | no contract of its own; the display-name edit; characterised by `ImageRename.EditIssuedIffDisplayName` and `ImageRename.EditFailureNotFatal` |
| ImageRename.MoveStep | image_rename/renaming_script.py:103-130 | no contract of its own; the move; characterised by `ImageRename.MovePublishAndFanOut` and `ImageRename.PrimaryFailuresAreFatal` |
| ImageRename.PublishStep | image_rename/renaming_script.py:132-143 | no contract of its own; the primary publish; characterised by `ImageRename.PrimaryFailuresAreFatal` |
| ImageRename.SubscribersStep | image_rename/renaming_script.py:145-163 | no contract of its own; the subscriber listing; characterised by `ImageRename.PrimaryFailuresAreFatal` and `ImageRename.NoSubscribersEndsRow` |
| ImageRename.Subscriber | image_rename/renaming_script.py:166-191 | no contract of its own; one subscriber; characterised by `ImageRename.IneligibleSubscriberSkipped` and `ImageRename.EligibleSubscriberPublished` |
| ImageRename.FanOut | image_rename/renaming_script.py:165-191 | no contract of its own; the subscriber loop; characterised by `ImageRename.PublishSubscribers`, `ImageRename.FanOutStopsAt`, `ImageRename.FanOutCompletes` and `ImageRename.FanOutPublishesOnlyEligible` |
| ImageRename.DisplayNameEditSpec | image_rename/renaming_script.py:85-86 | an edit is prepared exactly when `metadata` is an object with a `displayName`; the edited asset has the new display name and every other part unchanged |
| ImageRename.PublishSubscribers | image_rename/renaming_script.py:165-191 | the subscriber loop does what the fan-out function states |
| ImageRename.MovePublishAndFanOut | image_rename/renaming_script.py:103-191 | the move, the publish, the subscriber listing and the fan-out do what `MoveStep` states |
| ImageRename.ProcessRow | image_rename/renaming_script.py:59-200 | the loop body does what `RenameRow` states for every row |
| ImageRename.Run | image_rename/renaming_script.py:51-202 | the script after start-up does what the row fold `RunFrom` states |
| ImageRename.HeaderRowSkipped | image_rename/renaming_script.py:61-62 | from any state the header row makes no call and writes no line, and removing it from the input changes nothing, whether or not the run reaches it |
| ImageRename.MalformedRowEndsRun | image_rename/renaming_script.py:63-69 | a row with the wrong width, or a path with no `/`, makes no call and ends the run as `BadRow` says |
| ImageRename.UnparsableReadSkipsRow | image_rename/renaming_script.py:80-82 | a read response for which the shape check comes out false costs that one call and one error line, and the run goes on |
| ImageRename.ShapeCheckCrashEndsRun | image_rename/renaming_script.py:79-80 | a read response on which the shape check raises costs the read call, writes no line, and ends the run with `TypeError` |
| ImageRename.EditIssuedIffDisplayName | image_rename/renaming_script.py:85-101 | the row issues an edit exactly when the asset has `metadata.displayName`, and then it is the first call after the read and carries the edited asset |
| ImageRename.EditFailureNotFatal | image_rename/renaming_script.py:96-97 | a failed edit is logged with its message, and the row goes on exactly as if the edit had succeeded: the move is the next call |
| ImageRename.PrimaryFailuresAreFatal | image_rename/renaming_script.py:119-155 | a failed move, primary publish or subscriber listing is logged and raises `RuntimeError`, with the exact calls and lines up to that point |
| ImageRename.NoSubscribersEndsRow | image_rename/renaming_script.py:158-163 | a `subscribers` value of length 0 (an empty list, object or string) logs "Publishing related asset to" and "No other assets associated" and ends the row with no further call |
| ImageRename.MoveAcceptedNoSubscribers | image_rename/renaming_script.py:119-163 | when the move, the publish and the empty listing succeed, the row issues exactly those calls and writes exactly the moved, published, related and no-other-assets lines |
| ImageRename.RenamedAndPublished | image_rename/renaming_script.py:75-163 | a row whose read, edit, move, publish and empty listing all succeed issues exactly five calls and writes exactly five lines, in order, and the run goes on |
| ImageRename.IneligibleSubscriberSkipped | image_rename/renaming_script.py:176-178 | a subscriber with a falsy `shouldBePublished` is read, logged as skipped, not published, and the loop goes on |
| ImageRename.EligibleSubscriberPublished | image_rename/renaming_script.py:182-191 | an eligible subscriber is published right after its read; success is logged and the loop goes on; failure is logged and raises `RuntimeError` |
| ImageRename.FanOutStopsAt | image_rename/renaming_script.py:165-191 | when the subscribers before position `k` all let the loop go on and subscriber `k` ends the row, the fan-out ends with exactly the state and ending subscriber `k` gives; no later subscriber is read or published |
| ImageRename.FanOutCompletes | image_rename/renaming_script.py:165-191 | when every subscriber lets the loop go on, the fan-out ends the row normally in the state the last subscriber left |
| ImageRename.FanOutPublishesOnlyEligible | image_rename/renaming_script.py:165-191 | every publish in the fan-out comes right after a read of the same asset whose record is marked for publishing |
| ImageRename.RenameRowsExtend | image_rename/renaming_script.py:58-200 | every rename row only appends to the calls and the log |
| SitemapSetter.Eligible | sitemap/sitemap_setter.py:51 | no contract of its own; the publish test; characterised by `SitemapSetter.SitemapSetSpec` and `SitemapSetter.IneligibleUnchanged` |
| SitemapSetter.IsSitemap | sitemap/sitemap_setter.py:53 | no contract of its own; the name test of the comprehension; characterised by `SitemapSetter.MatchesFrom` |
| SitemapSetter.SitemapMatches | sitemap/sitemap_setter.py:52-53 | no contract of its own; the comprehension over `fields`, of which only a list can hold a match; characterised by `SitemapSetter.MatchesFrom`, `SitemapSetter.MatchesComplete` and `SitemapSetter.FirstHit` |
| SitemapSetter.SetSitemapIfExists | sitemap/sitemap_setter.py:49-61 | no contract of its own; `set_sitemap_if_exists`; characterised by `SitemapSetter.SitemapSetSpec`, `SitemapSetter.IneligibleUnchanged` and `SitemapSetter.SitemapIdempotent` |
| SitemapSetter.SitemapRow | sitemap/sitemap_setter.py:71-114 | no contract of its own; one sitemap row; characterised by `SitemapSetter.ProcessRow`, `SitemapSetter.HeaderRowSkipped`, `SitemapSetter.RowWidth` and `SitemapSetter.UnparsableReadSkipsRow` |
| SitemapSetter.ReadCall | sitemap/sitemap_setter.py:84-87 | no contract of its own; the read of the asset by type and id; the one call of `SitemapSetter.UnparsableReadSkipsRow` |
| SitemapSetter.EditStep | sitemap/sitemap_setter.py:94-106 | no contract of its own; the update and its edit; characterised by `SitemapSetter.EditIffDynamicFields` and `SitemapSetter.EditFailureNotFatal` |
| SitemapSetter.MatchesFrom | sitemap/sitemap_setter.py:53 | the comprehension succeeds exactly when every field's name test does; it keeps, in increasing order, only positions of fields named `sitemap` |
| SitemapSetter.MatchesComplete | sitemap/sitemap_setter.py:53 | the comprehension keeps every field named `sitemap` |
| SitemapSetter.MatchesRaiseFirst | sitemap/sitemap_setter.py:53 | a failing comprehension raises the exception of the first field whose name test fails |
| SitemapSetter.FirstHit | sitemap/sitemap_setter.py:53-56 | `sitemap_field[0]` is the first field named `sitemap` |
| SitemapSetter.SitemapSetSpec | sitemap/sitemap_setter.py:49-61 | the asset is changed exactly when it is marked for publishing and the first value of its first sitemap field is `No`; that value becomes `Yes` and nothing else changes |
| SitemapSetter.IneligibleUnchanged | sitemap/sitemap_setter.py:59-61 | an asset not marked for publishing comes back unchanged, and the call raises exactly when the asset has no `path` to print |
| SitemapSetter.SitemapIdempotent | sitemap/sitemap_setter.py:49-61 | setting the sitemap of the result again changes nothing |
| SitemapSetter.HeaderRowSkipped | sitemap/sitemap_setter.py:73-74 | from any state the six-column header row makes no call and writes no line, and removing it from the input changes nothing, whether or not the run reaches it |
| SitemapSetter.RowWidth | sitemap/sitemap_setter.py:75-82 | any other row without six cells makes no call and ends the run as `BadRow` says; a six-cell row never ends it with a warning |
| SitemapSetter.UnparsableReadSkipsRow | sitemap/sitemap_setter.py:88-91 | a read response for which the shape check comes out false costs that one call and one error line naming the row's path |
| SitemapSetter.ShapeCheckCrashEndsRun | sitemap/sitemap_setter.py:88-89 | a read response on which the shape check raises costs the read call, writes no line, and ends the run with `TypeError` |
| SitemapSetter.EditIffDynamicFields | sitemap/sitemap_setter.py:94-106 | an edit is issued exactly when the metadata has `dynamicFields` and setting the sitemap raised nothing; it is then the only new call and carries the updated asset; without dynamic fields the row changes nothing |
| SitemapSetter.EditFailureNotFatal | sitemap/sitemap_setter.py:103-104 | a failed edit is logged with its message and the run goes on |
| SitemapSetter.SitemapRowsExtend | sitemap/sitemap_setter.py:70-114 | every sitemap row only appends to the calls and the log |
| SitemapSetter.ProcessRow | sitemap/sitemap_setter.py:71-114 | the loop body does what `SitemapRow` states for every row |
| SitemapSetter.Run | sitemap/sitemap_setter.py:63-116 | the script after start-up does what the row fold `RunFrom` states |

## Left out

- HTTP: the session, the headers, the base URL and the platform switch are
  not modelled, because only the responses matter to the logic. A response
  is one of three inputs: a network failure, a non-JSON body, or a JSON body.
- Configuration loading and its exits before any row: the configuration
  values are parameters.
- CSV parsing: rows are given as sequences of strings.
- `json.dumps` of the edit payload: the payload is the JSON value itself.
- Console prints, the log file's name, the timestamps and the exact wording
  of each log line: a log line is a `LogEvent` value. The start line is
  `Started`; the rename script's start line names the sitemap script, and
  that text is not modelled.
- The `finally` clause that closes the log, because closing has no effect on
  the calls or the lines.
- JSON floating-point numbers: numbers are integers. One case this leaves
  out is a float subscript: `relation_object['type']` (renaming_script.py
  line 175) is taken from a response and used as a subscript of
  `data["asset"]`. On a list or a string a float there raises `TypeError`,
  while the model's integers index.
- Dictionary iteration order: only the empty case reaches it. Iterating a
  non-empty object yields its string keys, and the first `'...'['name']` or
  `'...'['path']` raises `TypeError` whatever the order.
- Python's boolean–integer equality in `field_value == 'No'` and
  `field['name'] == "sitemap"`: a string is compared there, so only an equal
  string is equal.
- In-place mutation of the asset (renaming_script.py line 86,
  sitemap_setter.py line 58): it is modelled on values. `Assign` returns the
  updated document. At line 58 the write goes through `sitemap_field[0]` and
  is seen through `asset`; `Assign` reproduces that by writing along the
  whole path from `asset`. Parsed JSON shares no sub-objects, so every other
  reference to the changed value lies inside `asset`, and the script reads
  nothing else afterwards. Aliasing in general is not modelled.
- Cms.RequestFailed: the "Network issue occurred" line it adds is one
  `LogEvent`; the missing line break, which runs it into the next entry of
  the file, is not modelled.
- PyJson.AssignFrame: states nothing about chains with negative indices,
  which can name the same element as a non-negative one.
- SitemapSetter.SitemapSetSpec: its frame, like `AssignFrame`'s, covers only
  chains without negative indices.
- How a crash continues beyond the row loop (traceback, exit status): a crash
  is the status `Crashed` with the exception's kind.
