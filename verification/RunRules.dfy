/** What a run must satisfy before it is stored (`evalhub-core/src/validate.rs`,
    `run`), beyond the JSON Schema it is first checked against. */
module RunRules {
  import opened Prelude
  import opened Json
  import opened Text
  import opened Errors
  import opened Validate
  import opened Paths

  // ------------------------------------------------------- attachment paths

  predicate BadPath(p: string) {
    p == "" || p[0] == '/' || ".." in Split(p, '/')
  }

  /** The path of an element, if it has one. */
  function PathAt(items: seq<Json>, i: nat): Option<string>
    requires i < |items|
  {
    items[i].GetStr("path")
  }

  /** The paths of the first `n` elements a pointer may name. */
  function KnownPaths(items: seq<Json>, n: nat): set<string>
    requires n <= |items|
  {
    if n == 0 then {}
    else
      var p := PathAt(items, n - 1);
      KnownPaths(items, n - 1) + if p.Some? && !BadPath(p.value) then {p.value} else {}
  }

  function PathErrors(items: seq<Json>, n: nat): seq<ErrorEntry>
    requires n <= |items|
  {
    if n == 0 then []
    else
      var p := PathAt(items, n - 1);
      PathErrors(items, n - 1)
      + if p.Some? && (BadPath(p.value) || p.value in KnownPaths(items, n - 1))
        then [ErrorEntry("/attachments/" + Decimal(n - 1) + "/path", AttachmentPathInvalid)] else []
  }

  /** Relative, without `..`, and each path once. */
  ghost predicate PathsGood(items: seq<Json>, n: nat)
    requires n <= |items|
  {
    && (forall i :: 0 <= i < n && PathAt(items, i).Some? ==> !BadPath(PathAt(items, i).value))
    && (forall i, j :: 0 <= i < j < n && PathAt(items, i).Some? ==> PathAt(items, i) != PathAt(items, j))
  }

  lemma {:induction false} KnownExact(items: seq<Json>, n: nat, p: string)
    requires n <= |items|
    ensures p in KnownPaths(items, n) <==> !BadPath(p) && exists i :: 0 <= i < n && PathAt(items, i) == Some(p)
  {
    hide BadPath;
    if n > 0 { KnownExact(items, n - 1, p); }
  }

  /** The last of `n` elements has a good path of its own. */
  ghost predicate LastGood(items: seq<Json>, n: nat)
    requires 0 < n <= |items|
  {
    var p := PathAt(items, n - 1);
    p.Some? ==> !BadPath(p.value) && forall i :: 0 <= i < n - 1 ==> PathAt(items, i) != p
  }

  lemma PathsGoodMore(items: seq<Json>, n: nat)
    requires 0 < n <= |items|
    ensures PathsGood(items, n) <==> PathsGood(items, n - 1) && LastGood(items, n)
  {
    hide BadPath;
  }

  lemma {:induction false} PathErrorsExact(items: seq<Json>, n: nat)
    requires n <= |items|
    ensures PathErrors(items, n) == [] <==> PathsGood(items, n)
  {
    hide BadPath;
    if n > 0 {
      hide PathsGood, KnownPaths;
      PathErrorsExact(items, n - 1);
      PathsGoodMore(items, n);
      if PathAt(items, n - 1).Some? { KnownExact(items, n - 1, PathAt(items, n - 1).value); }
    }
  }

  /** `attachment_paths`: the set of paths seen so far grows as the list is read. */
  method AttachmentPaths(items: seq<Json>, errors0: seq<ErrorEntry>) returns (paths: set<string>, errors: seq<ErrorEntry>)
    ensures paths == KnownPaths(items, |items|)
    ensures errors == errors0 + PathErrors(items, |items|)
  {
    hide BadPath;
    paths, errors := {}, errors0;
    for i := 0 to |items|
      invariant paths == KnownPaths(items, i)
      invariant errors == errors0 + PathErrors(items, i)
    {
      var p := items[i].GetStr("path");
      Regroup(errors0, PathErrors(items, i), [ErrorEntry("/attachments/" + Decimal(i) + "/path", AttachmentPathInvalid)]);
      if p.Some? {
        if BadPath(p.value) || p.value in paths {
          errors := errors + [ErrorEntry("/attachments/" + Decimal(i) + "/path", AttachmentPathInvalid)];
        } else {
          paths := paths + {p.value};
        }
      }
    }
  }

  // ----------------------------------------------------------------- pieces

  function Items(body: Json, key: string): seq<Json> {
    if body.Get(key).Some? && body.Get(key).value.JArr? then body.Get(key).value.items else []
  }

  function Keys(doc: Option<Json>): set<string> {
    if doc.Some? && doc.value.JObj? then doc.value.fields.Keys else {}
  }

  predicate Given(body: Json, key: string) {
    body.Get(key).Some? && !body.Get(key).value.JNull?
  }

  function IdErrors(runId: string): seq<ErrorEntry> {
    if IsValidRunId(runId) then [] else [ErrorEntry("/run_id", RunIdInvalid)]
  }

  function MismatchErrors(runId: string, body: Json): seq<ErrorEntry> {
    if body.GetStr("run_id").Some? && body.GetStr("run_id").value != runId
    then [ErrorEntry("/run_id", RunIdMismatch)] else []
  }

  /** Which details a status calls for: an error, a reason to skip. */
  function Details(status: Option<string>): Option<(bool, bool)> {
    if status == Some("ok") then Some((false, false))
    else if status == Some("error") then Some((true, false))
    else if status == Some("skipped") then Some((false, true))
    else None
  }

  function StatusErrors(body: Json): seq<ErrorEntry> {
    var wants := Details(body.GetStr("status"));
    if wants.None? then []
    else
      (if Given(body, "error") != wants.value.0 then [ErrorEntry("/error", RunStatusDetail)] else [])
      + if Given(body, "skip_reason") != wants.value.1 then [ErrorEntry("/skip_reason", RunStatusDetail)] else []
  }

  function RefErrors(paths: set<string>, ref: Option<string>, pointer: string): seq<ErrorEntry> {
    if ref.Some? && ref.value !in paths then [ErrorEntry(pointer, AttachmentRefUnknown)] else []
  }

  function ArtifactErrors(paths: set<string>, items: seq<Json>, n: nat): seq<ErrorEntry>
    requires n <= |items|
  {
    if n == 0 then []
    else
      ArtifactErrors(paths, items, n - 1)
      + if items[n - 1].JStr? then RefErrors(paths, Some(items[n - 1].s), "/artifacts/" + Decimal(n - 1)) else []
  }

  function ErrorLog(body: Json): Option<string> {
    if body.Get("error").None? then None else body.Get("error").value.GetStr("log")
  }

  /** One error for every key that is not an id. */
  function KeyErrors(keys: seq<string>, n: nat, prefix: string, code: ErrorCode): seq<ErrorEntry>
    requires n <= |keys|
  {
    if n == 0 then []
    else
      KeyErrors(keys, n - 1, prefix, code)
      + if IsValidId(keys[n - 1]) then [] else [ErrorEntry(prefix + EscapePointer(keys[n - 1]), code)]
  }

  /** RFC 6901, section 3. */
  function EscapePointer(key: string): string {
    if key == "" then ""
    else (if key[0] == '~' then "~0" else if key[0] == '/' then "~1" else [key[0]]) + EscapePointer(key[1..])
  }

  function ExtOf(doc: Option<Json>): set<string> {
    if doc.Some? then Keys(doc.value.Get("ext")) else {}
  }

  function ExtErrors(doc: Option<Json>, prefix: string): seq<ErrorEntry> {
    var keys := Ascending(ExtOf(doc));
    KeyErrors(keys, |keys|, prefix + "/ext/", ExtKeyInvalid)
  }

  function FacetExtErrors(body: Json, facets: seq<string>, n: nat): seq<ErrorEntry>
    requires n <= |facets|
  {
    if n == 0 then []
    else FacetExtErrors(body, facets, n - 1) + ExtErrors(body.Get(facets[n - 1]), "/" + facets[n - 1])
  }

  function RefsErrors(body: Json): seq<ErrorEntry> {
    var paths := KnownPaths(Items(body, "attachments"), |Items(body, "attachments")|);
    var artifacts := Items(body, "artifacts");
    RefErrors(paths, body.GetStr("calls"), "/calls")
    + ArtifactErrors(paths, artifacts, |artifacts|)
    + RefErrors(paths, ErrorLog(body), "/error/log")
  }

  function KeysErrors(body: Json): seq<ErrorEntry> {
    var metrics := Ascending(Keys(body.Get("metrics")));
    KeyErrors(metrics, |metrics|, "/metrics/", MetricIdInvalid)
    + (ExtErrors(Some(body), "") + FacetExtErrors(body, CARD_FACETS, |CARD_FACETS|))
  }

  function SemanticErrors(runId: string, body: Json): seq<ErrorEntry> {
    IdErrors(runId)
    + if !body.JObj? then []
      else
        MismatchErrors(runId, body) + StatusErrors(body)
        + PathErrors(Items(body, "attachments"), |Items(body, "attachments")|)
        + RefsErrors(body) + KeysErrors(body)
  }

  // ----------------------------------------------------------------- methods

  method CheckArtifacts(paths: set<string>, items: seq<Json>, errors0: seq<ErrorEntry>) returns (errors: seq<ErrorEntry>)
    ensures errors == errors0 + ArtifactErrors(paths, items, |items|)
  {
    errors := errors0;
    for j := 0 to |items|
      invariant errors == errors0 + ArtifactErrors(paths, items, j)
    {
      Regroup(errors0, ArtifactErrors(paths, items, j), [ErrorEntry("/artifacts/" + Decimal(j), AttachmentRefUnknown)]);
      if items[j].JStr? && items[j].s !in paths {
        errors := errors + [ErrorEntry("/artifacts/" + Decimal(j), AttachmentRefUnknown)];
      }
    }
  }

  method CheckKeys(keys: seq<string>, prefix: string, code: ErrorCode, errors0: seq<ErrorEntry>) returns (errors: seq<ErrorEntry>)
    ensures errors == errors0 + KeyErrors(keys, |keys|, prefix, code)
  {
    errors := errors0;
    for i := 0 to |keys|
      invariant errors == errors0 + KeyErrors(keys, i, prefix, code)
    {
      if !IsValidId(keys[i]) {
        errors := errors + [ErrorEntry(prefix + EscapePointer(keys[i]), code)];
      }
    }
  }

  method CheckExtOf(doc: Option<Json>, prefix: string, errors0: seq<ErrorEntry>) returns (errors: seq<ErrorEntry>)
    ensures errors == errors0 + ExtErrors(doc, prefix)
  {
    errors := CheckKeys(Ascending(ExtOf(doc)), prefix + "/ext/", ExtKeyInvalid, errors0);
  }

  /** `ext_keys_everywhere` */
  method CheckExt(body: Json, errors0: seq<ErrorEntry>) returns (errors: seq<ErrorEntry>)
    ensures errors == errors0 + (ExtErrors(Some(body), "") + FacetExtErrors(body, CARD_FACETS, |CARD_FACETS|))
  {
    hide ExtErrors;
    var facets := CARD_FACETS;
    var top := ExtErrors(Some(body), "");
    errors := CheckExtOf(Some(body), "", errors0);
    for i := 0 to |facets|
      invariant errors == errors0 + (top + FacetExtErrors(body, facets, i))
    {
      var here := "/" + facets[i];
      errors := CheckExtOf(body.Get(facets[i]), here, errors);
      Regroup(top, FacetExtErrors(body, facets, i), ExtErrors(body.Get(facets[i]), here));
      Regroup(errors0, top + FacetExtErrors(body, facets, i), ExtErrors(body.Get(facets[i]), here));
    }
  }

  method CheckRefs(body: Json, paths: set<string>, errors0: seq<ErrorEntry>) returns (errors: seq<ErrorEntry>)
    requires paths == KnownPaths(Items(body, "attachments"), |Items(body, "attachments")|)
    ensures errors == errors0 + RefsErrors(body)
  {
    hide KnownPaths, ArtifactErrors, RefErrors, ErrorLog;
    var artifacts := Items(body, "artifacts");
    var calls, log := RefErrors(paths, body.GetStr("calls"), "/calls"), RefErrors(paths, ErrorLog(body), "/error/log");
    errors := CheckArtifacts(paths, artifacts, errors0 + calls);
    errors := errors + log;
    Regroup(errors0, calls, ArtifactErrors(paths, artifacts, |artifacts|));
    Regroup(errors0, calls + ArtifactErrors(paths, artifacts, |artifacts|), log);
  }

  method CheckAllKeys(body: Json, errors0: seq<ErrorEntry>) returns (errors: seq<ErrorEntry>)
    ensures errors == errors0 + KeysErrors(body)
  {
    hide KeyErrors, ExtErrors, FacetExtErrors;
    var metrics := Ascending(Keys(body.Get("metrics")));
    errors := CheckKeys(metrics, "/metrics/", MetricIdInvalid, errors0);
    errors := CheckExt(body, errors);
    Regroup(errors0, KeyErrors(metrics, |metrics|, "/metrics/", MetricIdInvalid),
            ExtErrors(Some(body), "") + FacetExtErrors(body, CARD_FACETS, |CARD_FACETS|));
  }

  /** `run_semantic` */
  method RunSemantic(runId: string, body: Json) returns (errors: seq<ErrorEntry>)
    ensures errors == SemanticErrors(runId, body)
  {
    hide IdErrors, MismatchErrors, StatusErrors, PathErrors, RefsErrors, KeysErrors, KnownPaths;
    errors := IdErrors(runId);
    if !body.JObj? {
      return;
    }
    ghost var found := MismatchErrors(runId, body);
    errors := errors + MismatchErrors(runId, body);
    Regroup(IdErrors(runId), found, StatusErrors(body));
    found := found + StatusErrors(body);
    errors := errors + StatusErrors(body);
    var items := Items(body, "attachments");
    Regroup(IdErrors(runId), found, PathErrors(items, |items|));
    found := found + PathErrors(items, |items|);
    var paths;
    paths, errors := AttachmentPaths(items, errors);
    Regroup(IdErrors(runId), found, RefsErrors(body));
    found := found + RefsErrors(body);
    errors := CheckRefs(body, paths, errors);
    Regroup(IdErrors(runId), found, KeysErrors(body));
    errors := CheckAllKeys(body, errors);
  }

  // ------------------------------------------------------------- acceptance

  ghost predicate ExtKeysValid(doc: Option<Json>) {
    forall k :: k in ExtOf(doc) ==> IsValidId(k)
  }

  /** The rules, told without the list of their violations. */
  ghost predicate WellFormedRun(runId: string, body: Json) {
    && IsValidRunId(runId)
    && (body.JObj? ==>
      && (body.GetStr("run_id").Some? ==> body.GetStr("run_id").value == runId)
      && (body.GetStr("status") == Some("ok") ==> !Given(body, "error") && !Given(body, "skip_reason"))
      && (body.GetStr("status") == Some("error") ==> Given(body, "error") && !Given(body, "skip_reason"))
      && (body.GetStr("status") == Some("skipped") ==> !Given(body, "error") && Given(body, "skip_reason"))
      && PathsGood(Items(body, "attachments"), |Items(body, "attachments")|)
      && (body.GetStr("calls").Some? ==> Attached(body, body.GetStr("calls").value))
      && (forall a :: a in Items(body, "artifacts") && a.JStr? ==> Attached(body, a.s))
      && (ErrorLog(body).Some? ==> Attached(body, ErrorLog(body).value))
      && (forall k :: k in Keys(body.Get("metrics")) ==> IsValidId(k))
      && ExtKeysValid(Some(body))
      && (forall f :: f in CARD_FACETS ==> ExtKeysValid(body.Get(f))))
  }

  /** Some attachment of the run has this path. */
  predicate Attached(body: Json, p: string) {
    exists i :: 0 <= i < |Items(body, "attachments")| && PathAt(Items(body, "attachments"), i) == Some(p) && !BadPath(p)
  }

  lemma KnownIsAttached(body: Json, p: string)
    ensures p in KnownPaths(Items(body, "attachments"), |Items(body, "attachments")|) <==> Attached(body, p)
  {
    KnownExact(Items(body, "attachments"), |Items(body, "attachments")|, p);
  }

  lemma {:induction false} KeyErrorsExact(keys: seq<string>, n: nat, prefix: string, code: ErrorCode)
    requires n <= |keys|
    ensures KeyErrors(keys, n, prefix, code) == [] <==> forall i :: 0 <= i < n ==> IsValidId(keys[i])
  {
    hide IsValidId;
    if n > 0 { KeyErrorsExact(keys, n - 1, prefix, code); }
  }

  lemma {:induction false} SetKeysExact(keys: set<string>, prefix: string, code: ErrorCode)
    ensures KeyErrors(Ascending(keys), |Ascending(keys)|, prefix, code) == [] <==> forall k :: k in keys ==> IsValidId(k)
  {
    hide IsValidId;
    var list := Ascending(keys);
    KeyErrorsExact(list, |list|, prefix, code);
    forall k | k in keys ensures exists i :: 0 <= i < |list| && list[i] == k { assert k in list; }
    forall i | 0 <= i < |list| ensures list[i] in keys { assert list[i] in list; }
  }

  lemma {:induction false} ArtifactErrorsExact(paths: set<string>, items: seq<Json>, n: nat)
    requires n <= |items|
    ensures ArtifactErrors(paths, items, n) == [] <==> forall i :: 0 <= i < n && items[i].JStr? ==> items[i].s in paths
  {
    if n > 0 { ArtifactErrorsExact(paths, items, n - 1); }
  }

  lemma ExtExact(doc: Option<Json>, prefix: string)
    ensures ExtErrors(doc, prefix) == [] <==> ExtKeysValid(doc)
  {
    SetKeysExact(ExtOf(doc), prefix + "/ext/", ExtKeyInvalid);
  }

  lemma {:induction false} FacetExtExact(body: Json, facets: seq<string>, n: nat)
    requires n <= |facets|
    ensures FacetExtErrors(body, facets, n) == [] <==> forall f :: f in facets[..n] ==> ExtKeysValid(body.Get(f))
  {
    hide ExtKeysValid, ExtErrors;
    if n > 0 {
      FacetExtExact(body, facets, n - 1);
      ExtExact(body.Get(facets[n - 1]), "/" + facets[n - 1]);
      assert facets[..n] == facets[..n - 1] + [facets[n - 1]];
    }
  }

  lemma RefsExact(body: Json)
    ensures RefsErrors(body) == [] <==>
            && (body.GetStr("calls").Some? ==> Attached(body, body.GetStr("calls").value))
            && (forall a :: a in Items(body, "artifacts") && a.JStr? ==> Attached(body, a.s))
            && (ErrorLog(body).Some? ==> Attached(body, ErrorLog(body).value))
  {
    hide KnownPaths, Attached;
    var paths := KnownPaths(Items(body, "attachments"), |Items(body, "attachments")|);
    var artifacts := Items(body, "artifacts");
    ArtifactErrorsExact(paths, artifacts, |artifacts|);
    forall p { KnownIsAttached(body, p); }
    if RefsErrors(body) == [] {
      forall a | a in artifacts && a.JStr? ensures Attached(body, a.s) {
        var i :| 0 <= i < |artifacts| && artifacts[i] == a;
      }
    }
    forall i | 0 <= i < |artifacts| ensures artifacts[i] in artifacts {}
  }

  lemma KeysExact(body: Json)
    ensures KeysErrors(body) == [] <==>
            && (forall k :: k in Keys(body.Get("metrics")) ==> IsValidId(k))
            && ExtKeysValid(Some(body))
            && (forall f :: f in CARD_FACETS ==> ExtKeysValid(body.Get(f)))
  {
    hide IsValidId, KeyErrors, ExtKeysValid, ExtErrors, Keys;
    SetKeysExact(Keys(body.Get("metrics")), "/metrics/", MetricIdInvalid);
    ExtExact(Some(body), "");
    FacetExtExact(body, CARD_FACETS, |CARD_FACETS|);
    assert CARD_FACETS[..|CARD_FACETS|] == CARD_FACETS;
  }

  /** No error exactly when every rule holds. */
  lemma SemanticExact(runId: string, body: Json)
    ensures SemanticErrors(runId, body) == [] <==> WellFormedRun(runId, body)
  {
    hide IsValidRunId, Items, PathErrors, RefsErrors, KeysErrors, PathsGood, Attached, IsValidId, Keys, ExtKeysValid, ErrorLog;
    PathErrorsExact(Items(body, "attachments"), |Items(body, "attachments")|);
    RefsExact(body);
    KeysExact(body);
  }
}
