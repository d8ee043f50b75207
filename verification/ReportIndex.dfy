/** The report index with its outbox: queued metadata overlays the index until a retry has moved it there. */
module ReportIndex {
  import opened Basics

  // ---- words ----

  predicate Word(w: string) { w != "" && forall i :: 0 <= i < |w| ==> !IsSpace(w[i]) }

  /** The length of the run of non-blanks at the front. */
  function RunLength(s: string): (n: nat)
    ensures n <= |s| && (forall i :: 0 <= i < n ==> !IsSpace(s[i])) && (n < |s| ==> IsSpace(s[n]))
  {
    if s == "" || IsSpace(s[0]) then 0 else 1 + RunLength(s[1..])
  }

  /** `str.split()`. */
  function Words(s: string): (ws: seq<string>)
    ensures forall i :: 0 <= i < |ws| ==> Word(ws[i])
    decreases |s|
  {
    if s == "" then []
    else if IsSpace(s[0]) then Words(s[1..])
    else var n := RunLength(s); [s[..n]] + Words(s[n..])
  }

  /** `" ".join`. */
  function Join(ws: seq<string>): string {
    if ws == [] then "" else if |ws| == 1 then ws[0] else ws[0] + " " + Join(ws[1..])
  }

  const PREVIEW_LIMIT := 512

  function Cut(s: string, limit: nat): string { if |s| <= limit then s else s[..limit] }

  /** Blanks are normalized first and the text is cut afterwards, so the cut may leave a blank at the end. */
  function Preview(s: string): string { Cut(Join(Words(s)), PREVIEW_LIMIT) }

  function Trimmed(s: string): string { if s != "" && s[|s| - 1] == ' ' then s[..|s| - 1] else s }

  lemma RunLengthIs(s: string, n: nat)
    requires n <= |s| && (forall i :: 0 <= i < n ==> !IsSpace(s[i])) && (n < |s| ==> IsSpace(s[n]))
    ensures RunLength(s) == n
  {}

  /** Reading a word and a blank off the front. */
  lemma WordsOfWord(w: string, rest: string)
    requires Word(w)
    ensures Words(w) == [w] && Words(w + " ") == [w] && Words(w + " " + rest) == [w] + Words(rest)
  {
    RunLengthIs(w, |w|);
    RunLengthIs(w + " ", |w|);
    RunLengthIs(w + " " + rest, |w|);
    assert (w + " ")[..|w|] == w && (w + " ")[|w|..] == " ";
    assert (w + " " + rest)[..|w|] == w && (w + " " + rest)[|w|..] == " " + rest;
    assert (" " + rest)[1..] == rest;
    assert w[..|w|] == w;
    assert " "[1..] == "" && Words(" ") == [];
  }

  lemma JoinTail(ws: seq<string>)
    requires |ws| > 1
    ensures Join(ws) == ws[0] + " " + Join(ws[1..])
  {}

  /** Normalizing any front part of a normalized text takes at most the blank at its end. */
  lemma {:induction false} PrefixNormal(ws: seq<string>, k: nat)
    requires (forall i :: 0 <= i < |ws| ==> Word(ws[i])) && k <= |Join(ws)|
    ensures Join(Words(Join(ws)[..k])) == Trimmed(Join(ws)[..k])
    decreases |ws|
  {
    if ws != [] && k > 0 {
      var w, s := ws[0], Join(ws);
      if k <= |w| {
        assert s[..k] == w[..k];
        WordsOfWord(w[..k], "");
      } else {
        JoinTail(ws);
        var j := k - |w| - 1;
        PrefixNormal(ws[1..], j);
        if j > 0 { WordsNonEmpty(ws[1..], j); }
        PrefixStep(w, Join(ws[1..]), j);
        assert s[..k] == w + " " + Join(ws[1..])[..j];
      }
    }
  }

  lemma TrimTail(front: string, tail: string)
    requires tail != ""
    ensures Trimmed(front + tail) == front + Trimmed(tail)
  {
    var s := front + tail;
    assert s[..|s| - 1] == front + tail[..|tail| - 1];
  }

  lemma JoinCons(w: string, ws: seq<string>)
    requires ws != []
    ensures Join([w] + ws) == w + " " + Join(ws)
  {
    assert ([w] + ws)[1..] == ws;
  }

  lemma PrefixStep(w: string, rest: string, j: nat)
    requires Word(w) && j <= |rest| && Join(Words(rest[..j])) == Trimmed(rest[..j]) && (j > 0 ==> Words(rest[..j]) != [])
    ensures Join(Words(w + " " + rest[..j])) == Trimmed(w + " " + rest[..j])
  {
    hide Words, Word, Trimmed, Join;
    WordsOfWord(w, rest[..j]);
    if j == 0 {
      assert w + " " + rest[..j] == w + " ";
      SingleWord(w);
    } else {
      JoinCons(w, Words(rest[..j]));
      TrimTail(w + " ", rest[..j]);
    }
  }

  lemma SingleWord(w: string)
    ensures Join([w]) == w && Trimmed(w + " ") == w
  {}

  /** A non-empty front part of a normalized text starts with a word. */
  lemma WordsNonEmpty(ws: seq<string>, j: nat)
    requires (forall i :: 0 <= i < |ws| ==> Word(ws[i])) && 0 < j <= |Join(ws)|
    ensures Words(Join(ws)[..j]) != []
  {
    assert ws != [] && Join(ws)[0] == ws[0][0];
  }

  /** A preview read back and normalized again is the same up to a blank that the cut left at the end. */
  lemma PreviewTwice(s: string)
    ensures Preview(Preview(s)) == Trimmed(Preview(s))
    ensures Preview(Preview(s)) == Preview(s) <==>
            !(|Join(Words(s))| > PREVIEW_LIMIT && Join(Words(s))[PREVIEW_LIMIT - 1] == ' ')
  {
    var full := Join(Words(s));
    var k := if |full| <= PREVIEW_LIMIT then |full| else PREVIEW_LIMIT;
    assert Preview(s) == full[..k];
    PrefixNormal(Words(s), k);
    LastIsNoBlank(Words(s));
  }

  lemma {:induction false} LastIsNoBlank(ws: seq<string>)
    requires forall i :: 0 <= i < |ws| ==> Word(ws[i])
    ensures var s := Join(ws); s != "" ==> s[|s| - 1] != ' '
    decreases |ws|
  {
    if |ws| > 1 {
      LastIsNoBlank(ws[1..]);
      assert Join(ws[1..]) != "" by { assert Word(ws[1]); }
    } else if ws != [] {
      assert Word(ws[0]);
    }
  }

  // ---- records ----

  datatype Error = BadId | BadRoot | BadPath | BadStatus | BadSource | BadIndexStatus | BadPathState | BadAsset

  /** Metadata as it comes in; every column may be missing. `texts` are the columns that are plain text. */
  datatype Metadata = Metadata(
    id: Option<string>, root: Option<string>, path: Option<string>, status: Option<string>, source: Option<string>,
    indexStatus: Option<string>, pathState: Option<string>, asset: Option<string>, rating: Option<string>, signal: Option<string>,
    texts: seq<Option<string>>, analysts: Option<seq<string>>, providers: Option<seq<string>>, depth: Option<int>,
    preview: Option<string>, updatedAt: Option<string>)

  datatype Report = Report(
    id: string, root: string, path: string, status: string, source: string, indexStatus: string, pathState: string,
    asset: Option<string>, rating: Option<string>, texts: seq<Option<string>>, analysts: seq<string>, providers: seq<string>,
    depth: Option<int>, preview: string, updatedAt: string)

  datatype Normal = Fine(report: Report) | Bad(error: Error)

  /** `str(value or default)`. */
  function Or(o: Option<string>, default: string): string { if o.Some? && o.value != "" then o.value else default }

  function Text(o: Option<string>): Option<string> { if o == Some("") then None else o }

  function Texts(os: seq<Option<string>>): seq<Option<string>> { seq(|os|, i requires 0 <= i < |os| => Text(os[i])) }

  predicate Component(s: string) { s != "" && s != "." && s != ".." && '/' !in s && '\\' !in s }

  function SlashAt(s: string): (n: nat)
    ensures n <= |s| && '/' !in s[..n] && (n < |s| ==> s[n] == '/')
  {
    if s == "" || s[0] == '/' then 0 else (assert s[..1 + SlashAt(s[1..])] == [s[0]] + s[1..][..SlashAt(s[1..])]; 1 + SlashAt(s[1..]))
  }

  predicate Components(s: string)
    decreases |s|
  {
    var n := SlashAt(s);
    Component(s[..n]) && (n < |s| ==> Components(s[n + 1..]))
  }

  /** A relative posix path in its own normal form; a lone point is one, having no parts at all. */
  predicate ValidPath(s: string) { s == "." || Components(s) }

  predicate ValidRoot(s: string) { s in {"web_reports", "results_reports", "cwd_reports"} }
  predicate ValidStatus(s: string) { s in {"completed", "failed", "cancelled", "interrupted", "timed_out"} }
  predicate ValidSource(s: string) { s in {"web", "legacy"} }
  predicate ValidIndexStatus(s: string) { s in {"indexed", "pending", "error"} }
  predicate ValidPathState(s: string) { s in {"valid", "missing", "unsafe"} }
  predicate ValidAsset(o: Option<string>) { o.None? || o.value in {"stock", "crypto"} }

  /** `_normalize`. */
  function Normalize(m: Metadata, now: string): Normal {
    var id := Strip(Or(m.id, ""));
    if id == "" then Bad(BadId)
    else if !ValidRoot(Or(m.root, "")) then Bad(BadRoot)
    else if !ValidPath(Or(m.path, "")) then Bad(BadPath)
    else if !ValidStatus(Or(m.status, "completed")) then Bad(BadStatus)
    else if !ValidSource(Or(m.source, "web")) then Bad(BadSource)
    else if !ValidIndexStatus(Or(m.indexStatus, "indexed")) then Bad(BadIndexStatus)
    else if !ValidPathState(Or(m.pathState, "valid")) then Bad(BadPathState)
    else if !ValidAsset(m.asset) then Bad(BadAsset)
    else
      Fine(Report(id, Or(m.root, ""), Or(m.path, ""), Or(m.status, "completed"), Or(m.source, "web"), Or(m.indexStatus, "indexed"),
                  Or(m.pathState, "valid"), m.asset, if m.rating.Some? then m.rating else m.signal, Texts(m.texts),
                  if m.analysts.Some? then m.analysts.value else [], if m.providers.Some? then m.providers.value else [],
                  m.depth, Preview(Or(m.preview, "")), Or(m.updatedAt, now)))
  }

  /** `_payload`: a normalized record as it is queued. */
  function Payload(r: Report): Metadata {
    Metadata(Some(r.id), Some(r.root), Some(r.path), Some(r.status), Some(r.source), Some(r.indexStatus), Some(r.pathState),
             r.asset, r.rating, r.rating, r.texts, Some(r.analysts), Some(r.providers), r.depth, Some(r.preview), Some(r.updatedAt))
  }

  ghost predicate IsPreview(p: string) { exists s :: p == Preview(s) }

  /** The records that come out of a normalization. */
  ghost predicate IsNormal(r: Report) {
    && r.id != "" && Strip(r.id) == r.id && ValidRoot(r.root) && ValidPath(r.path) && ValidStatus(r.status) && ValidSource(r.source)
    && ValidIndexStatus(r.indexStatus) && ValidPathState(r.pathState) && ValidAsset(r.asset) && Texts(r.texts) == r.texts
    && IsPreview(r.preview) && r.updatedAt != ""
  }

  function Settled(r: Report): Report { r.(preview := Trimmed(r.preview)) }

  lemma StripLeftStops(s: string)
    ensures var r := StripLeft(s); r != "" ==> !IsSpace(r[0])
  {}

  lemma {:induction false} StripRightStops(s: string)
    ensures var r := StripRight(s); (r != "" ==> !IsSpace(r[|r| - 1])) && r <= s
    decreases |s|
  {
    if s != "" && IsSpace(s[|s| - 1]) { StripRightStops(s[..|s| - 1]); }
  }

  lemma StripTwice(s: string)
    ensures Strip(Strip(s)) == Strip(s)
  {
    var l := StripLeft(s);
    StripLeftStops(s);
    StripRightStops(l);
    var r := StripRight(l);
    if r != "" { assert r[0] == l[0]; }
  }

  lemma TextsTwice(os: seq<Option<string>>)
    ensures Texts(Texts(os)) == Texts(os)
  {}

  lemma PathNotEmpty(s: string)
    requires ValidPath(s)
    ensures s != ""
  {}

  lemma RootNotEmpty(s: string)
    requires ValidRoot(s)
    ensures s != ""
  {}

  lemma NormalizedIsNormal(m: Metadata, now: string)
    requires now != ""
    ensures Normalize(m, now).Fine? ==> IsNormal(Normalize(m, now).report)
  {
    hide Preview, ValidPath, StripLeft, StripRight;
    StripTwice(Or(m.id, ""));
    TextsTwice(m.texts);
    assert IsPreview(Preview(Or(m.preview, "")));
  }

  /** Normalizing a queued record again gives the same record, up to the blank at the end of a cut preview. */
  lemma NormalizeTwice(r: Report, now: string)
    requires IsNormal(r)
    ensures Normalize(Payload(r), now) == Fine(Settled(r)) && IsNormal(Settled(r))
  {
    hide Preview, ValidPath, Strip, Trimmed, ValidRoot, SlashAt;
    var s :| r.preview == Preview(s);
    PreviewTwice(s);
    PathNotEmpty(r.path);
    RootNotEmpty(r.root);
    assert IsPreview(Preview(r.preview));
  }

  // ---- what is accepted, and what is stored ----

  /** `s[i..j]` is what stands between two slashes or ends of the path. */
  predicate Part(s: string, i: int, j: int) {
    0 <= i <= j <= |s| && (i == 0 || s[i - 1] == '/') && (j == |s| || s[j] == '/') && '/' !in s[i..j]
  }

  predicate CleanText(s: string) { s != "" && s != "." && s != ".." }

  /** No part of the path is empty or made of one or two points, and there is no backslash. */
  ghost predicate CleanPath(s: string) {
    '\\' !in s && forall i, j :: Part(s, i, j) ==> CleanText(s[i..j])
  }

  lemma {:induction false} ComponentsIff(s: string)
    ensures Components(s) <==> CleanPath(s)
    decreases |s|
  {
    var n := SlashAt(s);
    FirstPart(s);
    if n < |s| {
      ComponentsIff(s[n + 1..]);
      PartsBehind(s);
    } else {
      OnlyPart(s);
    }
  }

  lemma FirstPart(s: string)
    ensures Part(s, 0, SlashAt(s))
    ensures forall j :: Part(s, 0, j) ==> j == SlashAt(s)
  {
    var n := SlashAt(s);
    assert s[0..n] == s[..n];
    forall k | 0 <= k < n ensures s[k] != '/' { assert s[..n][k] == s[k]; }
    forall j | Part(s, 0, j) ensures j == n {
      forall k | 0 <= k < j ensures s[k] != '/' { assert s[0..j][k] == s[k]; }
    }
  }

  lemma OnlyPart(s: string)
    requires SlashAt(s) == |s|
    ensures Component(s[..|s|]) <==> CleanPath(s)
  {
    FirstPart(s);
    assert s[..|s|] == s && s[0..|s|] == s;
    forall k | 0 <= k < |s| ensures s[k] != '/' { assert s[..|s|][k] == s[k]; }
  }

  /** Behind a slash the parts are those of the rest. */
  lemma PartOfRest(s: string, n: nat, i: int, j: int)
    requires n < |s| && s[n] == '/' && Part(s[n + 1..], i, j)
    ensures 0 <= i <= j <= |s| - n - 1 && Part(s, i + n + 1, j + n + 1) && s[i + n + 1..j + n + 1] == s[n + 1..][i..j]
  {
    assert s[i + n + 1..j + n + 1] == s[n + 1..][i..j];
  }

  lemma PartInRest(s: string, n: nat, i: int, j: int)
    requires n < |s| && s[n] == '/' && Part(s, i, j) && i > n
    ensures n < i <= j <= |s| && Part(s[n + 1..], i - n - 1, j - n - 1) && s[n + 1..][i - n - 1..j - n - 1] == s[i..j]
  {
    assert s[n + 1..][i - n - 1..j - n - 1] == s[i..j];
  }

  lemma LaterPart(s: string, i: int, j: int)
    requires Part(s, i, j) && i > 0
    ensures i > SlashAt(s)
  {
    var n := SlashAt(s);
    forall k | 0 <= k < n ensures s[k] != '/' { assert s[..n][k] == s[k]; }
  }

  lemma PartsDown(s: string)
    requires SlashAt(s) < |s| && CleanPath(s)
    ensures Component(s[..SlashAt(s)]) && CleanPath(s[SlashAt(s) + 1..])
  {
    var n := SlashAt(s);
    var t := s[n + 1..];
    FirstPart(s);
    assert s[0..n] == s[..n] && CleanText(s[0..n]);
    assert '\\' !in t && '\\' !in s[..n];
    forall i, j | Part(t, i, j) ensures CleanText(t[i..j]) { PartOfRest(s, n, i, j); }
  }

  lemma NoBackslash(s: string, n: nat)
    requires n < |s| && s[n] == '/' && '\\' !in s[..n] && '\\' !in s[n + 1..]
    ensures '\\' !in s
  {
    assert s == s[..n] + ['/'] + s[n + 1..];
  }

  lemma PartsUp(s: string)
    requires SlashAt(s) < |s| && Component(s[..SlashAt(s)]) && CleanPath(s[SlashAt(s) + 1..])
    ensures CleanPath(s)
  {
    var n := SlashAt(s);
    NoBackslash(s, n);
    forall i, j | Part(s, i, j) ensures CleanText(s[i..j]) { CleanBehind(s, i, j); }
  }

  lemma CleanBehind(s: string, i: int, j: int)
    requires SlashAt(s) < |s| && Component(s[..SlashAt(s)]) && CleanPath(s[SlashAt(s) + 1..]) && Part(s, i, j)
    ensures CleanText(s[i..j])
  {
    if i > 0 {
      LaterPart(s, i, j);
      PartInRest(s, SlashAt(s), i, j);
    } else {
      FirstPart(s);
      assert s[0..SlashAt(s)] == s[..SlashAt(s)];
    }
  }

  /** The parts of a path are its first one and those of the path behind it. */
  lemma PartsBehind(s: string)
    requires SlashAt(s) < |s|
    ensures CleanPath(s) <==> Component(s[..SlashAt(s)]) && CleanPath(s[SlashAt(s) + 1..])
  {
    hide CleanPath, Component;
    if CleanPath(s) { PartsDown(s); }
    if Component(s[..SlashAt(s)]) && CleanPath(s[SlashAt(s) + 1..]) { PartsUp(s); }
  }

  /** Given, or else the default; an empty text counts as missing. */
  ghost predicate Reads(given: Option<string>, default: string, v: string) {
    if given == None || given == Some("") then v == default else given == Some(v)
  }

  /** Exactly which metadata is accepted. */
  lemma AcceptedIff(m: Metadata, now: string)
    ensures Normalize(m, now).Fine? <==>
            && (m.id.Some? && exists k :: 0 <= k < |m.id.value| && !Blank(m.id.value[k]))
            && m.root.Some? && m.root.value in {"web_reports", "results_reports", "cwd_reports"}
            && m.path.Some? && (m.path.value == "." || CleanPath(m.path.value))
            && (exists v :: Reads(m.status, "completed", v) && v in {"completed", "failed", "cancelled", "interrupted", "timed_out"})
            && (exists v :: Reads(m.source, "web", v) && v in {"web", "legacy"})
            && (exists v :: Reads(m.indexStatus, "indexed", v) && v in {"indexed", "pending", "error"})
            && (exists v :: Reads(m.pathState, "valid", v) && v in {"valid", "missing", "unsafe"})
            && (m.asset == None || m.asset == Some("stock") || m.asset == Some("crypto"))
  {
    hide Preview, Strip, CleanPath, Components;
    OrReads(m.status, "completed");
    OrReads(m.source, "web");
    OrReads(m.indexStatus, "indexed");
    OrReads(m.pathState, "valid");
    assert Reads(m.status, "completed", Or(m.status, "completed")) && Reads(m.source, "web", Or(m.source, "web"));
    assert Reads(m.indexStatus, "indexed", Or(m.indexStatus, "indexed")) && Reads(m.pathState, "valid", Or(m.pathState, "valid"));
    IdIff(m.id);
    PathIff(m.path);
  }

  lemma OrReads(given: Option<string>, default: string)
    ensures forall v :: Reads(given, default, v) <==> v == Or(given, default)
  {}

  lemma IdIff(id: Option<string>)
    ensures Strip(Or(id, "")) != "" <==> id.Some? && exists k :: 0 <= k < |id.value| && !Blank(id.value[k])
  {
    var s := Or(id, "");
    var i, j := StripIsCore(s);
    if Strip(s) != "" { assert !Blank(s[i]); }
  }

  lemma PathIff(path: Option<string>)
    ensures ValidPath(Or(path, "")) <==> path.Some? && (path.value == "." || CleanPath(path.value))
  {
    ComponentsIff(Or(path, ""));
    if Or(path, "") == "" { assert Part("", 0, 0) && ""[0..0] == ""; }
  }

  /** What is stored of accepted metadata: the id without blanks around it, the given texts or their defaults, the signal where no
      rating is given, and a preview of at most 512 characters. */
  lemma StoredIs(m: Metadata, now: string)
    requires Normalize(m, now).Fine?
    ensures var r := Normalize(m, now).report;
            && (exists i, j :: m.id.Some? && IsCore(m.id.value, i, j) && r.id == m.id.value[i..j])
            && m.root == Some(r.root) && m.path == Some(r.path)
            && Reads(m.status, "completed", r.status) && Reads(m.source, "web", r.source)
            && Reads(m.indexStatus, "indexed", r.indexStatus) && Reads(m.pathState, "valid", r.pathState)
            && Reads(m.updatedAt, now, r.updatedAt)
            && r.asset == m.asset && r.depth == m.depth && r.rating == (if m.rating.Some? then m.rating else m.signal)
            && |r.texts| == |m.texts| && (forall k :: 0 <= k < |m.texts| ==> r.texts[k] == if m.texts[k] == Some("") then None else m.texts[k])
            && r.analysts == (if m.analysts.Some? then m.analysts.value else [])
            && r.providers == (if m.providers.Some? then m.providers.value else [])
            && |r.preview| <= 512
  {
    hide Words, Join, Strip, ValidPath;
    var i, j := StripIsCore(Or(m.id, ""));
    PathIff(m.path);
  }

  // ---- the two tables ----

  datatype Queued = Queued(report: Report, attempts: nat, error: string, updatedAt: string)

  datatype Tables = Tables(reports: map<string, Report>, outbox: map<string, Queued>)

  ghost predicate Ok(t: Tables) {
    && (forall id :: id in t.reports ==> t.reports[id].id == id)
    && (forall id :: id in t.outbox ==> t.outbox[id].report.id == id && IsNormal(t.outbox[id].report))
  }

  /** `_combined_cte`: rows of the index without an outbox entry, and every outbox entry. */
  function RowsOf(t: Tables, id: string): seq<Report> {
    (if id in t.reports && id !in t.outbox then [t.reports[id]] else [])
    + if id in t.outbox then [t.outbox[id].report] else []
  }

  function View(t: Tables): map<string, Report> {
    map id | id in t.reports.Keys + t.outbox.Keys :: if id in t.outbox then t.outbox[id].report else t.reports[id]
  }

  /** The combined view lists every report id once, and shows for it what the map shows. */
  lemma ListedOnce(t: Tables, id: string)
    ensures RowsOf(t, id) == if id in View(t) then [View(t)[id]] else []
    ensures Ok(t) && id in View(t) ==> View(t)[id].id == id
  {}

  function Upserted(t: Tables, r: Report): Tables { t.(reports := t.reports[r.id := r]) }

  /** `upsert`. */
  function Upsert(t: Tables, m: Metadata, now: string): Tables {
    var n := Normalize(m, now); if n.Fine? then Upserted(t, n.report) else t
  }

  /** `enqueue`; a newer entry for the same report keeps the attempts of the older one. */
  function Enqueue(t: Tables, m: Metadata, error: string, now: string): Tables {
    var n := Normalize(m.(indexStatus := Some("pending"), updatedAt := Some(now)), now);
    if n.Bad? then t
    else
      var attempts := if n.report.id in t.outbox then t.outbox[n.report.id].attempts else 0;
      t.(outbox := t.outbox[n.report.id := Queued(n.report, attempts, error, now)])
  }

  // ---- a retry, in its separate transactions ----

  /** The first transaction: the queued record, as it was read, goes into the index. */
  function Moved(t: Tables, read: Report, now: string): Tables { Upsert(t, Payload(read), now) }

  /** The second: the entry goes. */
  function Removed(t: Tables, id: string): Tables { t.(outbox := t.outbox - {id}) }

  /** The failure branch. */
  function Bumped(t: Tables, id: string, error: string, now: string): Tables {
    if id in t.outbox then t.(outbox := t.outbox[id := t.outbox[id].(attempts := t.outbox[id].attempts + 1, error := error, updatedAt := now)])
    else t
  }

  lemma MovedIs(t: Tables, read: Report, now: string)
    requires IsNormal(read)
    ensures Moved(t, read, now) == Upserted(t, Settled(read))
  {
    hide IsNormal, Normalize, Payload, Trimmed;
    NormalizeTwice(read, now);
  }

  /** A crash between the two transactions leaves the view as it was. */
  lemma CrashBetween(t: Tables, id: string, now: string)
    requires Ok(t) && id in t.outbox
    ensures var u := Moved(t, t.outbox[id].report, now); View(u) == View(t) && Ok(u)
  {
    hide IsNormal, Upsert, Payload, Trimmed;
    MovedIs(t, t.outbox[id].report, now);
  }

  /** A whole retry of one entry keeps every id and every field of every row, up to the blank at the end of its preview. */
  lemma RetryKeepsView(t: Tables, id: string, now: string)
    requires Ok(t) && id in t.outbox
    ensures var u := Removed(Moved(t, t.outbox[id].report, now), id);
            Ok(u) && View(u) == View(t)[id := Settled(View(t)[id])]
  {
    hide IsNormal, Upsert, Payload, Trimmed;
    MovedIs(t, t.outbox[id].report, now);
    var u := Removed(Moved(t, t.outbox[id].report, now), id);
    assert View(u) == View(t)[id := Settled(View(t)[id])];
  }

  /** The delete is by id alone: it leaves the view in place exactly when the index holds what the entry shows. An entry that was
      replaced after the retry had read it is dropped, and with it the newer record. */
  lemma RemoveKeepsViewIff(t: Tables, id: string)
    requires Ok(t) && id in t.outbox
    ensures View(Removed(t, id)) == View(t) <==> id in t.reports && t.reports[id] == t.outbox[id].report
  {
    hide IsNormal;
    var u := Removed(t, id);
    assert id in View(t) && View(t)[id] == t.outbox[id].report;
    if id in t.reports && t.reports[id] == t.outbox[id].report {
      assert View(u) == View(t);
    } else if id in View(u) {
      assert View(u)[id] != View(t)[id];
    }
  }

  lemma BumpOk(t: Tables, id: string, error: string, now: string)
    requires Ok(t) && id in t.outbox
    ensures Ok(Bumped(t, id, error, now))
  {
    hide IsNormal;
  }

  lemma BumpKeepsView(t: Tables, id: string, error: string, now: string)
    requires id in t.outbox
    ensures View(Bumped(t, id, error, now)) == View(t)
  {
    var u := Bumped(t, id, error, now);
    assert u.outbox.Keys == t.outbox.Keys;
    assert forall i :: i in u.outbox ==> u.outbox[i].report == t.outbox[i].report;
  }

  lemma MovedOutbox(t: Tables, read: Report, now: string)
    ensures Moved(t, read, now).outbox == t.outbox
  {
    hide Normalize, Payload;
  }

  /** An enqueue that falls between a retry's read and its delete is lost: the view falls back to the older record. */
  lemma EnqueueDuringRetryIsLost(t: Tables, id: string, m: Metadata, error: string, now: string, later: string)
    requires Ok(t) && id in t.outbox && now != ""
    requires var n := Normalize(m.(indexStatus := Some("pending"), updatedAt := Some(now)), now); n.Fine? && n.report.id == id
    ensures var read := t.outbox[id].report;
            var u := Removed(Moved(Enqueue(t, m, error, now), read, later), id);
            id in View(u) && View(u)[id] == Settled(read)
  {
    hide IsNormal, Normalize, Payload, Trimmed;
    MovedIs(Enqueue(t, m, error, now), t.outbox[id].report, later);
  }

  // ---- everything that can happen ----

  /** A retry in progress: the record it has read, and whether the index has it by now. */
  datatype Ticket = Ticket(report: Report, moved: bool)

  datatype World = World(t: Tables, tickets: map<nat, Ticket>)

  datatype Op =
    | DoUpsert(m: Metadata, now: string)
    | DoEnqueue(m: Metadata, error: string, now: string)
    | Read(k: nat, id: string)                    // a retry, in its steps
    | Move(k: nat, now: string)
    | Remove(k: nat)
    | Fail(k: nat, error: string, now: string)
    | Crash                                       // retries are forgotten, the tables stay

  predicate Allowed(w: World, op: Op) {
    match op
    case DoUpsert(_, now) => now != ""
    case DoEnqueue(_, _, now) => now != ""
    case Read(k, id) => k !in w.tickets && id in w.t.outbox
    case Move(k, _) => k in w.tickets && !w.tickets[k].moved
    case Remove(k) => k in w.tickets && w.tickets[k].moved
    case Fail(k, _, _) => k in w.tickets
    case Crash => true
  }

  function Step(w: World, op: Op): World
    requires Allowed(w, op)
  {
    match op
    case DoUpsert(m, now) => w.(t := Upsert(w.t, m, now))
    case DoEnqueue(m, error, now) => w.(t := Enqueue(w.t, m, error, now))
    case Read(k, id) => w.(tickets := w.tickets[k := Ticket(w.t.outbox[id].report, false)])
    case Move(k, now) => World(Moved(w.t, w.tickets[k].report, now), w.tickets[k := w.tickets[k].(moved := true)])
    case Remove(k) => World(Removed(w.t, w.tickets[k].report.id), w.tickets - {k})
    case Fail(k, error, now) => World(Bumped(w.t, w.tickets[k].report.id, error, now), w.tickets - {k})
    case Crash => w.(tickets := map[])
  }

  ghost predicate WorldOk(w: World) {
    Ok(w.t) && forall k :: k in w.tickets ==> IsNormal(w.tickets[k].report) && (w.tickets[k].moved ==> w.tickets[k].report.id in w.t.reports)
  }

  lemma EnqueueNormal(t: Tables, m: Metadata, error: string, now: string)
    requires Ok(t) && now != ""
    ensures Ok(Enqueue(t, m, error, now))
  {
    hide IsNormal, Normalize;
    NormalizedIsNormal(m.(indexStatus := Some("pending"), updatedAt := Some(now)), now);
  }

  lemma StepOk(w: World, op: Op)
    requires WorldOk(w) && Allowed(w, op)
    ensures WorldOk(Step(w, op)) && View(w.t).Keys <= View(Step(w, op).t).Keys
  {
    hide IsNormal, Normalize, Payload, Trimmed;
    match op
    case Move(k, now) => MovedIs(w.t, w.tickets[k].report, now);
    case DoEnqueue(m, error, now) => EnqueueNormal(w.t, m, error, now);
    case _ =>
  }

  /** What one operation does to the row, the entry and the open retries of a report. */
  lemma StepDoes(w: World, op: Op, id: string)
    requires WorldOk(w) && Allowed(w, op)
    ensures var n := Step(w, op);
            match op
            case DoUpsert(m, now) =>
              && n.t.outbox == w.t.outbox && n.tickets == w.tickets
              && var r := Normalize(m, now);
              if r.Fine? && r.report.id == id then id in n.t.reports && n.t.reports[id] == r.report else SameAt(w.t.reports, n.t.reports, id)
            case DoEnqueue(m, error, now) =>
              && n.t.reports == w.t.reports && n.tickets == w.tickets
              && var r := Normalize(m.(indexStatus := Some("pending"), updatedAt := Some(now)), now);
              if r.Fine? && r.report.id == id
              then id in n.t.outbox && n.t.outbox[id] == Queued(r.report, if id in w.t.outbox then w.t.outbox[id].attempts else 0, error, now)
                   && r.report.indexStatus == "pending" && r.report.updatedAt == now
              else SameAt(w.t.outbox, n.t.outbox, id)
            case Read(k, i) => n.t == w.t && i in w.t.outbox && n.tickets == w.tickets[k := Ticket(w.t.outbox[i].report, false)]
            case Move(k, _) =>
              && k in w.tickets && n.t.outbox == w.t.outbox && n.tickets == w.tickets[k := Ticket(w.tickets[k].report, true)]
              && if w.tickets[k].report.id == id then id in n.t.reports && n.t.reports[id] == Settled(w.tickets[k].report)
                 else SameAt(w.t.reports, n.t.reports, id)
            case Remove(k) =>
              && k in w.tickets && n.t.reports == w.t.reports && n.tickets == w.tickets - {k}
              && if w.tickets[k].report.id == id then id !in n.t.outbox else SameAt(w.t.outbox, n.t.outbox, id)
            case Fail(k, error, now) =>
              && k in w.tickets && n.t.reports == w.t.reports && n.tickets == w.tickets - {k}
              && if w.tickets[k].report.id == id && id in w.t.outbox
                 then id in n.t.outbox && n.t.outbox[id] == Queued(w.t.outbox[id].report, w.t.outbox[id].attempts + 1, error, now)
                 else SameAt(w.t.outbox, n.t.outbox, id)
            case Crash => n.t == w.t && n.tickets == map[]
  {
    hide IsNormal, Payload, Trimmed, Preview, ValidPath, Strip;
    match op
    case Move(k, now) => MovedIs(w.t, w.tickets[k].report, now);
    case _ =>
  }

  predicate SameAt<T(==)>(before: map<string, T>, after: map<string, T>, id: string) {
    if id in before then id in after && after[id] == before[id] else id !in after
  }

  predicate Runs(w: World, ops: seq<Op>)
    decreases |ops|
  {
    ops != [] ==> Allowed(w, ops[0]) && Runs(Step(w, ops[0]), ops[1..])
  }

  function Final(w: World, ops: seq<Op>): World
    requires Runs(w, ops)
    decreases |ops|
  {
    if ops == [] then w else Final(Step(w, ops[0]), ops[1..])
  }

  /** Whatever happens, in whatever order, with any number of retries at once and crashes anywhere: no report ever leaves the
      view, and every row keeps its id. */
  lemma {:induction false} NothingLeaves(w: World, ops: seq<Op>)
    requires WorldOk(w) && Runs(w, ops)
    ensures WorldOk(Final(w, ops)) && View(w.t).Keys <= View(Final(w, ops).t).Keys
    decreases |ops|
  {
    if ops != [] {
      StepOk(w, ops[0]);
      NothingLeaves(Step(w, ops[0]), ops[1..]);
    }
  }

  // ---- one retry within a history ----

  /** The record an operation queues for a report. */
  function Queues(op: Op, id: string): Option<Report> {
    if !op.DoEnqueue? then None
    else
      var n := Normalize(op.m.(indexStatus := Some("pending"), updatedAt := Some(op.now)), op.now);
      if n.Fine? && n.report.id == id then Some(n.report) else None
  }

  function LastQueued(r: Report, ops: seq<Op>, id: string): Report
    decreases |ops|
  {
    if ops == [] then r
    else LastQueued(if Queues(ops[0], id).Some? then Queues(ops[0], id).value else r, ops[1..], id)
  }

  /** Whether an operation writes this report's row of the index. */
  predicate Indexes(w: World, op: Op, id: string) {
    || (op.DoUpsert? && var n := Normalize(op.m, op.now); n.Fine? && n.report.id == id)
    || (op.Move? && op.k in w.tickets && w.tickets[op.k].report.id == id)
  }

  predicate NoIndexing(w: World, ops: seq<Op>, id: string)
    requires Runs(w, ops)
    decreases |ops|
  {
    ops != [] ==> !Indexes(w, ops[0], id) && NoIndexing(Step(w, ops[0]), ops[1..], id)
  }

  /** Steps of other retries, and no crash. */
  predicate Others(ops: seq<Op>, k: nat) {
    forall i :: 0 <= i < |ops| ==> !ops[i].Crash? && ((ops[i].Read? || ops[i].Move? || ops[i].Remove? || ops[i].Fail?) ==> ops[i].k != k)
  }

  predicate EntryIs(t: Tables, id: string, r: Report) { id in t.outbox ==> t.outbox[id].report == r }

  lemma EntryStep(w: World, op: Op, id: string, r: Report)
    requires Allowed(w, op) && EntryIs(w.t, id, r)
    ensures EntryIs(Step(w, op).t, id, if Queues(op, id).Some? then Queues(op, id).value else r)
  {
    hide Normalize, Payload;
  }

  /** As long as a report has an entry, it is the one last queued. */
  lemma {:induction false} EntryStays(w: World, ops: seq<Op>, id: string, r: Report)
    requires Runs(w, ops) && EntryIs(w.t, id, r)
    ensures EntryIs(Final(w, ops).t, id, LastQueued(r, ops, id))
    decreases |ops|
  {
    if ops != [] {
      hide EntryIs, Queues;
      EntryStep(w, ops[0], id, r);
      EntryStays(Step(w, ops[0]), ops[1..], id, if Queues(ops[0], id).Some? then Queues(ops[0], id).value else r);
    }
  }

  /** A retry keeps what it has read. */
  lemma {:induction false} TicketStays(w: World, ops: seq<Op>, k: nat)
    requires Runs(w, ops) && Others(ops, k) && k in w.tickets
    ensures k in Final(w, ops).tickets && Final(w, ops).tickets[k] == w.tickets[k]
    decreases |ops|
  {
    if ops != [] {
      hide Upsert, Enqueue, Bumped;
      assert k in Step(w, ops[0]).tickets && Step(w, ops[0]).tickets[k] == w.tickets[k];
      TicketStays(Step(w, ops[0]), ops[1..], k);
    }
  }

  /** The index row stays until it is written again. */
  lemma {:induction false} RowStays(w: World, ops: seq<Op>, id: string)
    requires Runs(w, ops) && NoIndexing(w, ops, id) && id in w.t.reports && WorldOk(w)
    ensures id in Final(w, ops).t.reports && Final(w, ops).t.reports[id] == w.t.reports[id]
    decreases |ops|
  {
    if ops != [] {
      StepOk(w, ops[0]);
      RowStep(w, ops[0], id);
      hide WorldOk, Indexes;
      RowStays(Step(w, ops[0]), ops[1..], id);
    }
  }

  lemma RowStep(w: World, op: Op, id: string)
    requires WorldOk(w) && Allowed(w, op) && !Indexes(w, op, id) && id in w.t.reports
    ensures id in Step(w, op).t.reports && Step(w, op).t.reports[id] == w.t.reports[id]
  {
    hide Normalize, Payload, IsNormal, Trimmed;
    if op.Move? { MovedIs(w.t, w.tickets[op.k].report, op.now); }
  }

  /** A retry between its upsert and its delete: the index has what it read, and an entry, if any, is `queued`. */
  ghost predicate HalfDone(w: World, k: nat, id: string, read: Report, queued: Report) {
    && WorldOk(w) && read.id == id && k in w.tickets && w.tickets[k] == Ticket(read, true)
    && id in w.t.reports && w.t.reports[id] == Settled(read) && EntryIs(w.t, id, queued)
  }

  lemma MoveHalves(w: World, k: nat, id: string, read: Report, queued: Report, now: string)
    requires WorldOk(w) && k in w.tickets && w.tickets[k] == Ticket(read, false) && read.id == id && EntryIs(w.t, id, queued)
    ensures HalfDone(Step(w, Move(k, now)), k, id, read, queued)
  {
    hide IsNormal, Normalize, Payload, Trimmed;
    MovedIs(w.t, read, now);
    StepOk(w, Move(k, now));
  }

  lemma HalfDoneStays(w: World, k: nat, id: string, read: Report, queued: Report, b: seq<Op>)
    requires HalfDone(w, k, id, read, queued) && Runs(w, b) && NoIndexing(w, b, id) && Others(b, k)
    ensures HalfDone(Final(w, b), k, id, read, LastQueued(queued, b, id))
  {
    hide WorldOk, EntryIs, Runs, Final, NoIndexing, LastQueued, Settled;
    NothingLeaves(w, b);
    EntryStays(w, b, id, queued);
    TicketStays(w, b, k);
    RowStays(w, b, id);
  }

  lemma DeleteShows(w: World, k: nat, id: string, read: Report, queued: Report)
    requires HalfDone(w, k, id, read, queued)
    ensures Allowed(w, Remove(k)) && View(Step(w, Remove(k)).t) == View(w.t)[id := Settled(read)]
    ensures id in View(w.t) && View(w.t)[id] == if id in w.t.outbox then queued else Settled(read)
  {
    hide IsNormal, Settled;
    assert View(Step(w, Remove(k)).t) == View(w.t)[id := Settled(read)];
  }

  /** A history in which retry `k` reads the entry of `id`, upserts it after `a`, and comes to its delete after `b`; `b` does
      not write the row itself. */
  ghost predicate Retries(w: World, k: nat, id: string, a: seq<Op>, now: string, b: seq<Op>) {
    && Allowed(w, Read(k, id)) && Runs(Step(w, Read(k, id)), a) && Others(a, k) && Others(b, k)
    && var x := Final(Step(w, Read(k, id)), a);
    && Allowed(x, Move(k, now)) && Runs(Step(x, Move(k, now)), b) && NoIndexing(Step(x, Move(k, now)), b, id)
  }

  ghost function AtDelete(w: World, k: nat, id: string, a: seq<Op>, now: string, b: seq<Op>): World
    requires Retries(w, k, id, a, now, b)
  {
    Final(Step(Final(Step(w, Read(k, id)), a), Move(k, now)), b)
  }

  /** One retry of one report with anything in between, other retries included. Its delete makes the view show what it had read;
      before, the view showed what was last queued in the meantime. So a record is lost only to an enqueue since the read. */
  lemma RetryInHistory(w: World, k: nat, id: string, a: seq<Op>, now: string, b: seq<Op>)
    requires WorldOk(w) && Retries(w, k, id, a, now, b)
    ensures var u, read := AtDelete(w, k, id, a, now, b), w.t.outbox[id].report;
            && Allowed(u, Remove(k)) && View(Step(u, Remove(k)).t) == View(u.t)[id := Settled(read)]
            && id in View(u.t) && View(u.t)[id] == if id in u.t.outbox then LastQueued(LastQueued(read, a, id), b, id) else Settled(read)
  {
    hide Runs, Final, NoIndexing, LastQueued, Settled, View, HalfDone;
    var read, v := w.t.outbox[id].report, Step(w, Read(k, id));
    StepOk(w, Read(k, id));
    NothingLeaves(v, a);
    EntryStays(v, a, id, read);
    TicketStays(v, a, k);
    var queued := LastQueued(read, a, id);
    MoveHalves(Final(v, a), k, id, read, queued, now);
    HalfDoneStays(Step(Final(v, a), Move(k, now)), k, id, read, queued, b);
    DeleteShows(AtDelete(w, k, id, a, now, b), k, id, read, LastQueued(queued, b, id));
  }

  lemma {:induction false} NoneQueued(r: Report, ops: seq<Op>, id: string)
    requires forall i :: 0 <= i < |ops| ==> Queues(ops[i], id).None?
    ensures LastQueued(r, ops, id) == r
    decreases |ops|
  {
    if ops != [] { NoneQueued(r, ops[1..], id); }
  }

  /** With no enqueue of the report between its read and its delete, a retry loses nothing: the view shows the record that was
      read, before and after, up to the blank at the end of its preview. */
  lemma QuietRetryLosesNothing(w: World, k: nat, id: string, a: seq<Op>, now: string, b: seq<Op>)
    requires WorldOk(w) && Retries(w, k, id, a, now, b)
    requires forall i :: 0 <= i < |a + b| ==> Queues((a + b)[i], id).None?
    ensures var u, read := AtDelete(w, k, id, a, now, b), w.t.outbox[id].report;
            && Allowed(u, Remove(k)) && View(Step(u, Remove(k)).t) == View(u.t)[id := Settled(read)]
            && id in View(u.t) && (View(u.t)[id] == read || View(u.t)[id] == Settled(read))
  {
    hide Queues, WorldOk, AtDelete, View, Settled, Runs, Final, NoIndexing;
    RetryInHistory(w, k, id, a, now, b);
    forall i | 0 <= i < |a| ensures Queues(a[i], id).None? { assert (a + b)[i] == a[i]; }
    forall i | 0 <= i < |b| ensures Queues(b[i], id).None? { assert (a + b)[|a| + i] == b[i]; }
    NoneQueued(w.t.outbox[id].report, a, id);
    NoneQueued(w.t.outbox[id].report, b, id);
  }

  // ---- in place ----

  class ReportIndexRepository {
    var reports: map<string, Report>
    var outbox: map<string, Queued>

    constructor ()
      ensures State() == Tables(map[], map[])
    {
      reports, outbox := map[], map[];
    }

    function State(): Tables
      reads this
    {
      Tables(reports, outbox)
    }

    method UpsertReport(m: Metadata, now: string) returns (error: Option<Error>)
      modifies this`reports
      ensures State() == Upsert(old(State()), m, now)
      ensures error == if Normalize(m, now).Bad? then Some(Normalize(m, now).error) else None
    {
      var n := Normalize(m, now);
      if n.Bad? { return Some(n.error); }
      reports := reports[n.report.id := n.report];
      error := None;
    }

    method EnqueueReport(m: Metadata, reason: string, now: string) returns (error: Option<Error>)
      modifies this`outbox
      ensures State() == Enqueue(old(State()), m, reason, now)
      ensures error.None? <==> Normalize(m.(indexStatus := Some("pending"), updatedAt := Some(now)), now).Fine?
    {
      var n := Normalize(m.(indexStatus := Some("pending"), updatedAt := Some(now)), now);
      if n.Bad? { return Some(n.error); }
      var id := n.report.id;
      if id in outbox {
        outbox := outbox[id := outbox[id].(report := n.report, error := reason, updatedAt := now)];
      } else {
        outbox := outbox[id := Queued(n.report, 0, reason, now)];
      }
      error := None;
    }

    /** One entry of a retry. */
    method RetryOne(id: string, fault: bool, now: string)
      requires Ok(State()) && id in outbox
      modifies this
      ensures Ok(State())
      ensures View(State()) == if fault then View(old(State())) else View(old(State()))[id := Settled(View(old(State()))[id])]
      ensures fault ==> outbox.Keys == old(outbox).Keys && outbox[id].attempts == old(outbox)[id].attempts + 1
      ensures !fault ==> outbox == old(outbox) - {id}
      ensures forall i :: i in outbox && i != id ==> outbox[i] == old(outbox)[i]
    {
      hide IsNormal, Normalize, Payload, Trimmed, Settled, Ok, View, Upsert;
      ghost var t := State();
      if fault {
        BumpOk(t, id, "index update failed", now);
        BumpKeepsView(t, id, "index update failed", now);
        outbox := outbox[id := outbox[id].(attempts := outbox[id].attempts + 1, error := "index update failed", updatedAt := now)];
      } else {
        RetryKeepsView(t, id, now);
        var report := outbox[id].report;
        var _ := UpsertReport(Payload(report), now);
        MovedOutbox(t, report, now);
        outbox := outbox - {id};
      }
    }

    /** `retry_outbox` over the entries it has read, oldest first; `faults` are those whose index update raises. The view keeps
        its ids; every entry that succeeds has its row settled, and every other row is as it was. */
    method RetryOutbox(ids: seq<string>, faults: set<string>, now: string) returns (completed: nat)
      requires Ok(State()) && (forall i :: 0 <= i < |ids| ==> ids[i] in outbox) && forall i, j :: 0 <= i < j < |ids| ==> ids[i] != ids[j]
      modifies this
      ensures Ok(State()) && View(State()).Keys == View(old(State())).Keys
      ensures forall id :: id in View(old(State())) ==>
                View(State())[id] == if id in ids && id !in faults then Settled(View(old(State()))[id]) else View(old(State()))[id]
      ensures forall id :: id in outbox <==> id in old(outbox) && !(id in ids && id !in faults)
      ensures forall id :: id in ids && id in faults ==> outbox[id].attempts == old(outbox)[id].attempts + 1
    {
      hide IsNormal, Ok, View, Settled, Drained;
      completed := 0;
      ghost var t := State();
      ghost var done: set<string> := {};
      DrainStart(t, faults);
      for k := 0 to |ids|
        invariant Ok(State()) && Drained(t, State(), done, faults)
        invariant (forall i :: 0 <= i < k ==> ids[i] in done) && (forall i :: k <= i < |ids| ==> ids[i] !in done) && forall id :: id in done ==> id in ids
      {
        var id := ids[k];
        ghost var u := State();
        StillQueued(t, u, done, faults, id);
        RetryOne(id, id in faults, now);
        DrainStep(t, u, State(), id, done, faults);
        if id !in faults { completed := completed + 1; }
        done := done + {id};
      }
      Drains(t, State(), done, faults, ids);
    }
  }

  /** What a retry has made of the tables once `done` have had their turn. */
  ghost predicate Drained(t: Tables, u: Tables, done: set<string>, faults: set<string>) {
    && View(u).Keys == View(t).Keys
    && (forall id :: id in View(t) ==> View(u)[id] == if id in done && id !in faults then Settled(View(t)[id]) else View(t)[id])
    && (forall id :: id in u.outbox <==> id in t.outbox && !(id in done && id !in faults))
    && (forall id :: id in u.outbox && id !in done ==> u.outbox[id] == t.outbox[id])
    && (forall id :: id in done && id in faults ==> id in u.outbox && id in t.outbox && u.outbox[id].attempts == t.outbox[id].attempts + 1)
  }

  lemma DrainStart(t: Tables, faults: set<string>)
    ensures Drained(t, t, {}, faults)
  {}

  lemma StillQueued(t: Tables, u: Tables, done: set<string>, faults: set<string>, id: string)
    requires Drained(t, u, done, faults) && id in t.outbox && id !in done
    ensures id in u.outbox && id in View(u)
  {}

  lemma DrainStep(t: Tables, u: Tables, v: Tables, id: string, done: set<string>, faults: set<string>)
    requires Drained(t, u, done, faults) && id in t.outbox && id !in done && id in u.outbox && id in View(u)
    requires View(v) == if id in faults then View(u) else View(u)[id := Settled(View(u)[id])]
    requires id in faults ==> v.outbox.Keys == u.outbox.Keys && v.outbox[id].attempts == u.outbox[id].attempts + 1
    requires id !in faults ==> v.outbox == u.outbox - {id}
    requires forall i :: i in v.outbox && i != id ==> i in u.outbox && v.outbox[i] == u.outbox[i]
    ensures Drained(t, v, done + {id}, faults)
  {
    hide View, Settled;
  }

  lemma Drains(t: Tables, u: Tables, done: set<string>, faults: set<string>, ids: seq<string>)
    requires Drained(t, u, done, faults) && forall id :: id in done <==> id in ids
    ensures View(u).Keys == View(t).Keys
    ensures forall id :: id in View(t) ==> View(u)[id] == if id in ids && id !in faults then Settled(View(t)[id]) else View(t)[id]
    ensures forall id :: id in u.outbox <==> id in t.outbox && !(id in ids && id !in faults)
    ensures forall id :: id in ids && id in faults ==> id in u.outbox && id in t.outbox && u.outbox[id].attempts == t.outbox[id].attempts + 1
  {
    hide View, Settled;
  }
}
