/**
 Artifacts are write-once, and a download returns the bytes of the one upload of its artifact, for the
 runs in which upload grants get fresh identifiers and download grants come from the download route.
 */
module ArtifactTheorems {
  import opened Wrappers
  import opened Artifacts

  /** The two ways the Gateway service issues grants. */
  predicate Disciplined(a: Action) {
    a.Issue? ==> a.op == Upload && (a.given.None? || a.given.value == "")
  }

  predicate AllDisciplined(actions: seq<Action>) {
    forall i :: 0 <= i < |actions| ==> Disciplined(actions[i])
  }

  predicate OneUploadGrant(grants: map<string, Grant>) {
    forall g, h ::
      g in grants && h in grants && g != h && grants[g].op == Upload && grants[h].op == Upload ==>
      grants[g].artifact != grants[h].artifact
  }

  predicate Untouched(s: System, a: string) { a !in s.files && a !in s.artifacts }

  predicate GrantFiles(s: System, g: Grant) {
    if g.op == Upload then !g.used ==> Untouched(s, g.artifact)
    else
      && g.artifact in s.artifacts
      && var row := s.artifacts[g.artifact];
      && row.device == g.device && row.workspace == g.workspace && row.mime == g.mime && 0 < g.maxBytes <= row.size
  }

  predicate ThreadFiles(s: System, th: Thread)
    requires th.grant in s.grants
  {
    var a := s.grants[th.grant].artifact;
    match th.phase
    case UpConsumed(_) => Untouched(s, a)
    case UpOpened(data) => Untouched(s, a) && a in s.temps && s.temps[a] == data
    case UpWritten(data) => a in s.files && s.files[a] == data && a !in s.artifacts
    case _ => true
  }

  predicate StoredFiles(s: System, e: Event) {
    e.Stored? ==>
      && e.grant in s.grants
      && var g := s.grants[e.grant];
      && g.artifact in s.files && s.files[g.artifact] == e.data
      && g.artifact in s.artifacts && s.artifacts[g.artifact] == Artifact(g.device, g.workspace, g.mime, |e.data|)
  }

  /** `trace[j]` is the upload, by the same caller, whose bytes and type the download `trace[i]` returned. */
  ghost predicate UploadOf(grants: map<string, Grant>, trace: seq<Event>, j: int, i: int) {
    && 0 <= j < i < |trace| && trace[j].Stored? && trace[i].Fetched? && trace[j].data == trace[i].data
    && trace[j].device == trace[i].device && trace[j].workspace == trace[i].workspace
    && trace[j].grant in grants && trace[i].grant in grants
    && var up, down := grants[trace[j].grant], grants[trace[i].grant];
    && up.artifact == down.artifact && up.device == down.device && up.workspace == down.workspace && up.mime == down.mime
  }

  ghost predicate FetchedOk(grants: map<string, Grant>, trace: seq<Event>) {
    forall i :: 0 <= i < |trace| && trace[i].Fetched? ==> exists j :: UploadOf(grants, trace, j, i)
  }

  ghost predicate UploadedAt(grants: map<string, Grant>, trace: seq<Event>, i: int, a: string) {
    0 <= i < |trace| && trace[i].Stored? && trace[i].grant in grants && grants[trace[i].grant].artifact == a
  }

  ghost predicate RowsUploaded(s: System) {
    forall a :: a in s.artifacts ==> exists i :: UploadedAt(s.grants, s.trace, i, a)
  }

  /** A temporary file never stands beside the stored file of the same artifact. */
  predicate TempsApart(s: System) { s.files.Keys !! s.temps.Keys }

  ghost predicate Files(s: System) {
    && OneUploadGrant(s.grants)
    && TempsApart(s)
    && GrantsOk(s)
    && ThreadsOk(s)
    && TraceOk(s)
  }

  ghost predicate Ok(s: System) { Single(s) && Files(s) }

  /** No file that exists is ever changed or removed. */
  ghost predicate WriteOnce(s: System, s': System) {
    forall a :: a in s.files ==> a in s'.files && s'.files[a] == s.files[a]
  }

  lemma TraceGrows(grants: map<string, Grant>, grants': map<string, Grant>, trace: seq<Event>, more: seq<Event>)
    requires FetchedOk(grants, trace) && Later(grants, grants')
    requires forall k :: 0 <= k < |more| ==> more[k].Stored?
    ensures FetchedOk(grants', trace + more)
  {
    var all := trace + more;
    forall i | 0 <= i < |all| && all[i].Fetched?
      ensures exists j :: UploadOf(grants', all, j, i)
    {
      var j :| UploadOf(grants, trace, j, i);
      assert UploadOf(grants', all, j, i);
    }
  }

  lemma RowsStayUploaded(s: System, grants': map<string, Grant>, more: seq<Event>, a: string)
    requires RowsUploaded(s) && Later(s.grants, grants') && a in s.artifacts
    ensures exists i :: UploadedAt(grants', s.trace + more, i, a)
  {
    var i :| UploadedAt(s.grants, s.trace, i, a);
    assert UploadedAt(grants', s.trace + more, i, a);
  }

  ghost predicate Grows(s: System, s': System) {
    && Later(s.grants, s'.grants)
    && WriteOnce(s, s')
    && forall a :: a in s.artifacts ==> a in s'.artifacts && s'.artifacts[a] == s.artifacts[a]
  }

  ghost predicate GrantsOk(s: System) { forall g :: g in s.grants ==> GrantFiles(s, s.grants[g]) }

  ghost predicate ThreadsOk(s: System) {
    forall t :: t in s.threads && s.threads[t].grant in s.grants ==> ThreadFiles(s, s.threads[t])
  }

  ghost predicate TraceOk(s: System) {
    && (forall i :: 0 <= i < |s.trace| ==> StoredFiles(s, s.trace[i]))
    && RowsUploaded(s)
    && FetchedOk(s.grants, s.trace)
  }

  lemma StoredStays(s: System, s': System)
    requires Grows(s, s') && s'.trace == s.trace
    requires forall i :: 0 <= i < |s.trace| ==> StoredFiles(s, s.trace[i])
    ensures forall i :: 0 <= i < |s'.trace| ==> StoredFiles(s', s'.trace[i])
  {
    forall i | 0 <= i < |s'.trace|
      ensures StoredFiles(s', s'.trace[i])
    {
      assert StoredFiles(s, s.trace[i]);
    }
  }

  lemma RowsStay(s: System, s': System)
    requires RowsUploaded(s) && Later(s.grants, s'.grants) && s'.artifacts == s.artifacts && s'.trace == s.trace
    ensures RowsUploaded(s')
  {
    forall a | a in s'.artifacts
      ensures exists i :: UploadedAt(s'.grants, s'.trace, i, a)
    {
      RowsStayUploaded(s, s'.grants, [], a);
      assert s.trace + [] == s.trace;
    }
  }

  /** Steps that add neither a row nor an event. */
  lemma TraceStays(s: System, s': System)
    requires TraceOk(s) && Grows(s, s') && s'.artifacts == s.artifacts && s'.trace == s.trace
    ensures TraceOk(s')
  {
    hide StoredFiles, RowsUploaded, FetchedOk;
    StoredStays(s, s');
    RowsStay(s, s');
    TraceGrows(s.grants, s'.grants, s.trace, []);
    assert s.trace + [] == s.trace;
  }

  lemma UntouchedStays(s: System, s': System, a: string)
    requires s'.files == s.files && s'.artifacts == s.artifacts
    ensures Untouched(s', a) == Untouched(s, a)
  {
  }

  lemma IssueThreads(s: System, s': System)
    requires ThreadsOk(s) && Single(s) && Later(s.grants, s'.grants)
    requires s'.files == s.files && s'.artifacts == s.artifacts && s'.temps == s.temps && s'.threads == s.threads
    ensures ThreadsOk(s')
  {
    forall t | t in s'.threads && s'.threads[t].grant in s'.grants
      ensures ThreadFiles(s', s'.threads[t])
    {
      assert ThreadOk(s.grants, s.threads[t]);
    }
  }

  /** A new grant row, of an artifact no other upload grant names. */
  lemma NewGrantFiles(s: System, s': System, id: string, g: Grant)
    requires Ok(s) && id !in s.grants && s' == s.(grants := s.grants[id := g]) && GrantFiles(s, g)
    requires g.op == Upload ==> forall h :: h in s.grants ==> s.grants[h].artifact != g.artifact
    ensures Files(s')
  {
    hide TraceOk, ThreadsOk, Single, Untouched;
    TraceStays(s, s');
    IssueThreads(s, s');
    forall h | h in s'.grants
      ensures GrantFiles(s', s'.grants[h])
    {
      if h in s.grants { assert GrantFiles(s, s.grants[h]); }
      UntouchedStays(s, s', s'.grants[h].artifact);
    }
  }

  lemma IssueFiles(s: System, a: Action)
    requires Ok(s) && Disciplined(a) && a.Issue?
    ensures Files(Step(s, a))
  {
    hide Ok, Files;
    assert Files(s) by { OkHasFiles(s); }
    var s' := Step(s, a);
    if s' != s { NewGrantFiles(s, s', a.grant, s'.grants[a.grant]); }
  }

  lemma IssueDownloadFiles(s: System, a: Action)
    requires Ok(s) && a.IssueDownload?
    ensures Files(Step(s, a))
  {
    hide Ok, Files;
    assert Files(s) by { OkHasFiles(s); }
    var s' := Step(s, a);
    if s' != s { NewGrantFiles(s, s', a.grant, s'.grants[a.grant]); }
  }

  lemma OkHasFiles(s: System)
    requires Ok(s)
    ensures Files(s)
  {
  }

  /** A step that moves only transfers and temporary files. */
  lemma SameFiles(s: System, s': System)
    requires Files(s) && s'.grants == s.grants && s'.artifacts == s.artifacts && s'.files == s.files && s'.trace == s.trace
    requires ThreadsOk(s') && TempsApart(s')
    ensures Files(s')
  {
    hide TraceOk, ThreadsOk, OneUploadGrant, Untouched;
    TraceStays(s, s');
    forall g | g in s'.grants
      ensures GrantFiles(s', s'.grants[g])
    {
      assert GrantFiles(s, s.grants[g]);
      UntouchedStays(s, s', s.grants[g].artifact);
    }
  }

  /** Where a transfer that did not move stands. */
  lemma ThreadStays(s: System, s': System, t: nat)
    requires ThreadsOk(s) && t in s.threads && t in s'.threads && s'.threads[t] == s.threads[t] && s'.grants == s.grants
    requires s'.artifacts == s.artifacts && s'.files == s.files && s.threads[t].grant in s.grants
    requires s.threads[t].phase.UpOpened? ==> (ArtifactOf(s, t) in s.temps ==>
      ArtifactOf(s, t) in s'.temps && s'.temps[ArtifactOf(s, t)] == s.temps[ArtifactOf(s, t)])
    ensures ThreadFiles(s', s'.threads[t])
  {
    assert ThreadFiles(s, s.threads[t]);
  }

  lemma BeginFiles(s: System, a: Action)
    requires Ok(s) && (a.BeginUpload? || a.BeginDownload?)
    ensures Files(Step(s, a))
  {
    hide TraceOk, Single, OneUploadGrant, GrantsOk, Verified;
    var s' := Step(s, a);
    forall t | t in s'.threads && s'.threads[t].grant in s'.grants
      ensures ThreadFiles(s', s'.threads[t])
    {
      if t in s.threads { ThreadStays(s, s', t); }
    }
    SameFiles(s, s');
  }

  /** Transfers that hold their grants work on different artifacts. */
  lemma OtherArtifact(s: System, t: nat, u: nat)
    requires Single(s) && OneUploadGrant(s.grants) && t in s.threads && u in s.threads && t != u
    requires Spending(s.threads[t].phase) && Spending(s.threads[u].phase)
    requires Uploading(s.threads[t].phase) && Uploading(s.threads[u].phase)
    ensures At(s, t) && At(s, u) && ArtifactOf(s, t) != ArtifactOf(s, u)
  {
    assert ThreadOk(s.grants, s.threads[t]) && ThreadOk(s.grants, s.threads[u]);
  }

  lemma SpentGrants(s: System, s': System, id: string)
    requires GrantsOk(s) && OneUploadGrant(s.grants) && id in s.grants
    requires s'.grants == s.grants || s'.grants == s.grants[id := s.grants[id].(used := true)]
    requires s'.files == s.files && s'.artifacts == s.artifacts
    ensures GrantsOk(s') && OneUploadGrant(s'.grants)
  {
    forall g | g in s'.grants
      ensures GrantFiles(s', s'.grants[g])
    {
      assert GrantFiles(s, s.grants[g]);
    }
  }

  lemma ConsumeThreads(s: System, id: nat)
    requires Ok(s) && At(s, id)
    ensures ThreadsOk(ConsumeStep(s, id))
  {
    hide Single, TraceOk, OneUploadGrant, Untouched;
    var s', th := ConsumeStep(s, id), s.threads[id];
    ThreadIsOk(s, id);
    assert GrantFiles(s, s.grants[th.grant]);
    hide GrantsOk, GrantFiles, ThreadOk;
    forall t | t in s'.threads && s'.threads[t].grant in s'.grants
      ensures ThreadFiles(s', s'.threads[t])
    {
      ThreadIsOk(s, t);
      UntouchedStays(s, s', s.grants[s.threads[t].grant].artifact);
    }
  }

  lemma ConsumeFiles(s: System, id: nat)
    requires Ok(s) && At(s, id)
    ensures Files(ConsumeStep(s, id))
  {
    hide TraceOk, Single, ThreadsOk, GrantsOk, OneUploadGrant;
    var s' := ConsumeStep(s, id);
    ConsumeThreads(s, id);
    TraceStays(s, s');
    SpentGrants(s, s', s.threads[id].grant);
  }

  /** Only the grant of a working upload speaks of its artifact before it is stored. */
  lemma OtherGrants(s: System, id: nat, g: string)
    requires Ok(s) && At(s, id) && Spending(s.threads[id].phase) && Uploading(s.threads[id].phase)
    requires g in s.grants && s.grants[g].op == Upload && !s.grants[g].used
    ensures s.grants[g].artifact != ArtifactOf(s, id)
  {
    assert ThreadOk(s.grants, s.threads[id]);
  }

  lemma ReplaceFiles(s: System, id: nat)
    requires Ok(s) && At(s, id)
    ensures Files(ReplaceStep(s, id)) && WriteOnce(s, ReplaceStep(s, id))
  {
    var s', th, a := ReplaceStep(s, id), s.threads[id], ArtifactOf(s, id);
    assert ThreadFiles(s, th);
    if th.phase.UpOpened? {
      ReplaceThreads(s, id);
      forall g | g in s'.grants
        ensures GrantFiles(s', s'.grants[g])
      {
        assert GrantFiles(s, s.grants[g]);
        if s.grants[g].op == Upload && !s.grants[g].used { OtherGrants(s, id, g); }
      }
      hide Single, ThreadsOk, TraceOk, OneUploadGrant;
      TraceStays(s, s');
    }
  }

  lemma ReplaceThreads(s: System, id: nat)
    requires Ok(s) && At(s, id) && s.threads[id].phase.UpOpened?
    ensures ThreadsOk(ReplaceStep(s, id))
  {
    hide TraceOk, GrantsOk, Single, OneUploadGrant;
    var s' := ReplaceStep(s, id);
    assert ThreadFiles(s, s.threads[id]);
    forall t | t in s'.threads && s'.threads[t].grant in s'.grants
      ensures ThreadFiles(s', s'.threads[t])
    {
      assert ThreadFiles(s, s.threads[t]);
      var p := s.threads[t].phase;
      if t != id && Uploading(p) && Spending(p) { OtherArtifact(s, t, id); }
    }
  }

  lemma UntouchedHasNoFile(s: System, a: string)
    requires Untouched(s, a)
    ensures a !in s.files
  {
  }

  lemma OpenTempFiles(s: System, id: nat)
    requires Ok(s) && At(s, id)
    ensures Files(OpenTempStep(s, id))
  {
    hide TraceOk, Single, OneUploadGrant, GrantsOk, Untouched;
    var s' := OpenTempStep(s, id);
    if s.threads[id].phase.UpConsumed? {
      forall t | t in s'.threads && s'.threads[t].grant in s'.grants
        ensures ThreadFiles(s', s'.threads[t])
      {
        if t == id {
          assert ThreadFiles(s, s.threads[id]);
          UntouchedStays(s, s', ArtifactOf(s, id));
        } else {
          if s.threads[t].phase.UpOpened? { OtherArtifact(s, t, id); }
          ThreadStays(s, s', t);
        }
      }
      assert ThreadFiles(s, s.threads[id]);
      UntouchedHasNoFile(s, ArtifactOf(s, id));
      SameFiles(s, s');
    }
  }

  lemma PutThreads(s: System, id: nat)
    requires Ok(s) && At(s, id) && s.threads[id].phase.UpWritten?
    ensures ThreadsOk(PutArtifactStep(s, id))
  {
    hide TraceOk, GrantsOk, Single, OneUploadGrant;
    var s' := PutArtifactStep(s, id);
    forall t | t in s'.threads && s'.threads[t].grant in s'.grants
      ensures ThreadFiles(s', s'.threads[t])
    {
      assert ThreadFiles(s, s.threads[t]);
      var p := s.threads[t].phase;
      if Uploading(p) && Spending(p) { OtherArtifact(s, t, id); }
    }
  }

  lemma PutGrants(s: System, id: nat)
    requires Ok(s) && At(s, id) && s.threads[id].phase.UpWritten?
    ensures GrantsOk(PutArtifactStep(s, id))
  {
    var s' := PutArtifactStep(s, id);
    assert ThreadFiles(s, s.threads[id]);
    hide TraceOk, ThreadsOk, Single, OneUploadGrant;
    forall g | g in s'.grants
      ensures GrantFiles(s', s'.grants[g])
    {
      assert GrantFiles(s, s.grants[g]);
      if s.grants[g].op == Upload && !s.grants[g].used { OtherGrants(s, id, g); }
    }
  }

  lemma PutStored(s: System, id: nat)
    requires Ok(s) && At(s, id) && s.threads[id].phase.UpWritten?
    ensures var s' := PutArtifactStep(s, id); forall i :: 0 <= i < |s'.trace| ==> StoredFiles(s', s'.trace[i])
  {
    hide Single, GrantsOk, OneUploadGrant;
    ThreadIsOk(s, id);
    var s', th := PutArtifactStep(s, id), s.threads[id];
    assert ThreadFiles(s, th);
    forall i | 0 <= i < |s'.trace|
      ensures StoredFiles(s', s'.trace[i])
    {
      if i < |s.trace| { StoredStaysStored(s, s', s.trace[i]); }
    }
  }

  lemma StoredStaysStored(s: System, s': System, e: Event)
    requires StoredFiles(s, e) && Grows(s, s')
    ensures StoredFiles(s', e)
  {
  }

  lemma PutRows(s: System, id: nat)
    requires RowsUploaded(s) && At(s, id) && s.threads[id].phase.UpWritten?
    ensures RowsUploaded(PutArtifactStep(s, id))
  {
    var s', th := PutArtifactStep(s, id), s.threads[id];
    if s'.artifacts != s.artifacts {
      var e := Stored(th.grant, th.device, th.workspace, th.phase.data, th.at);
      forall a | a in s'.artifacts
        ensures exists i :: UploadedAt(s'.grants, s'.trace, i, a)
      {
        if a in s.artifacts { RowsStayUploaded(s, s'.grants, [e], a); }
        else { assert UploadedAt(s'.grants, s'.trace, |s.trace|, a); }
      }
    }
  }

  lemma PutFiles(s: System, id: nat)
    requires Ok(s) && At(s, id) && s.threads[id].phase.UpWritten?
    ensures Files(PutArtifactStep(s, id))
  {
    hide Single, ThreadsOk, GrantsOk, OneUploadGrant, RowsUploaded, FetchedOk, StoredFiles;
    var s', th := PutArtifactStep(s, id), s.threads[id];
    PutThreads(s, id);
    PutGrants(s, id);
    PutStored(s, id);
    PutRows(s, id);
    var more := if s'.trace == s.trace then [] else [Stored(th.grant, th.device, th.workspace, th.phase.data, th.at)];
    assert s'.trace == s.trace + more;
    TraceGrows(s.grants, s'.grants, s.trace, more);
  }

  /** The download that succeeds now has its upload in the trace. */
  lemma FetchHasUpload(s: System, id: nat) returns (j: nat)
    requires Ok(s) && At(s, id) && s.threads[id].phase.DownSized? && FitsGrant(s, id)
    ensures var s' := ReadFileStep(s, id); UploadOf(s'.grants, s'.trace, j, |s.trace|)
  {
    var th := s.threads[id];
    var a := s.grants[th.grant].artifact;
    assert ThreadOk(s.grants, th) && GrantFiles(s, s.grants[th.grant]);
    var k :| UploadedAt(s.grants, s.trace, k, a);
    assert StoredFiles(s, s.trace[k]);
    j := k;
  }

  lemma FetchedGrows(grants: map<string, Grant>, trace: seq<Event>, e: Event, j: nat)
    requires FetchedOk(grants, trace) && UploadOf(grants, trace + [e], j, |trace|)
    ensures FetchedOk(grants, trace + [e])
  {
    var all := trace + [e];
    forall i | 0 <= i < |all| && all[i].Fetched?
      ensures exists j :: UploadOf(grants, all, j, i)
    {
      if i < |trace| {
        var k :| UploadOf(grants, trace, k, i);
        assert UploadOf(grants, all, k, i);
      }
    }
  }

  lemma FetchRows(s: System, s': System, e: Event)
    requires RowsUploaded(s)
    requires s'.grants == s.grants && s'.artifacts == s.artifacts && s'.trace == s.trace + [e]
    ensures RowsUploaded(s')
  {
    forall a | a in s'.artifacts
      ensures exists i :: UploadedAt(s'.grants, s'.trace, i, a)
    {
      RowsStayUploaded(s, s'.grants, [e], a);
    }
  }

  lemma FetchStored(s: System, s': System, e: Event)
    requires s'.grants == s.grants && s'.artifacts == s.artifacts && s'.files == s.files
    requires s'.trace == s.trace + [e] && e.Fetched?
    requires forall i :: 0 <= i < |s.trace| ==> StoredFiles(s, s.trace[i])
    ensures forall i :: 0 <= i < |s'.trace| ==> StoredFiles(s', s'.trace[i])
  {
    forall i | 0 <= i < |s'.trace|
      ensures StoredFiles(s', s'.trace[i])
    {
      if i < |s.trace| { assert StoredFiles(s, s.trace[i]); }
    }
  }

  lemma DropFiles(s: System, s': System, id: nat)
    requires Files(s) && s'.grants == s.grants && s'.artifacts == s.artifacts && s'.files == s.files
    requires s'.trace == s.trace && s'.threads == s.threads - {id}
    requires s'.temps == s.temps || (At(s, id) && s'.temps == s.temps - {ArtifactOf(s, id)})
    requires s'.temps != s.temps ==> Single(s) && Uploading(s.threads[id].phase) && Spending(s.threads[id].phase)
    ensures Files(s')
  {
    hide TraceOk, OneUploadGrant, Single, GrantsOk;
    forall t | t in s'.threads && s'.threads[t].grant in s'.grants
      ensures ThreadFiles(s', s'.threads[t])
    {
      if s'.temps != s.temps && s.threads[t].phase.UpOpened? { OtherArtifact(s, t, id); }
      ThreadStays(s, s', t);
    }
    SameFiles(s, s');
  }

  lemma TraceIsIrrelevant(s: System, trace: seq<Event>)
    requires GrantsOk(s) && ThreadsOk(s)
    ensures GrantsOk(s.(trace := trace)) && ThreadsOk(s.(trace := trace))
  {
    var s' := s.(trace := trace);
    forall g | g in s'.grants
      ensures GrantFiles(s', s'.grants[g])
    {
      assert GrantFiles(s, s.grants[g]);
    }
    forall t | t in s'.threads && s'.threads[t].grant in s'.grants
      ensures ThreadFiles(s', s'.threads[t])
    {
      assert ThreadFiles(s, s.threads[t]);
    }
  }

  lemma AddFetch(s: System, e: Event, j: nat)
    requires Files(s) && e.Fetched? && UploadOf(s.grants, s.trace + [e], j, |s.trace|)
    ensures Files(s.(trace := s.trace + [e]))
  {
    var s' := s.(trace := s.trace + [e]);
    hide StoredFiles, UploadOf, OneUploadGrant, RowsUploaded, FetchedOk, GrantsOk, ThreadsOk;
    TraceIsIrrelevant(s, s'.trace);
    FetchedGrows(s.grants, s.trace, e, j);
    FetchRows(s, s', e);
    FetchStored(s, s', e);
  }

  lemma FetchFiles(s: System, id: nat)
    requires Ok(s) && At(s, id) && s.threads[id].phase.DownSized?
    ensures Files(ReadFileStep(s, id))
  {
    hide Single, Files, UploadOf;
    DropFiles(s, Drop(s, id), id);
    if FitsGrant(s, id) {
      var j := FetchHasUpload(s, id);
      AddFetch(Drop(s, id), Fetched(s.threads[id].grant, s.threads[id].device, s.threads[id].workspace, s.files[ArtifactOf(s, id)], s.threads[id].at), j);
    }
  }

  lemma CheckSizeFiles(s: System, id: nat)
    requires Ok(s) && At(s, id)
    ensures Files(CheckSizeStep(s, id))
  {
    hide TraceOk, Single, OneUploadGrant, GrantsOk;
    var s' := CheckSizeStep(s, id);
    forall t | t in s'.threads && s'.threads[t].grant in s'.grants
      ensures ThreadFiles(s', s'.threads[t])
    {
      if t != id || s' == s { ThreadStays(s, s', t); }
    }
    SameFiles(s, s');
  }

  lemma FailFiles(s: System, id: nat)
    requires Ok(s) && At(s, id)
    ensures Files(FailStep(s, id))
  {
    hide TraceOk, Single, OneUploadGrant, GrantsOk, ThreadsOk, Files;
    DropFiles(s, FailStep(s, id), id);
  }

  lemma ThreadStepFiles(s: System, id: nat, a: Action)
    requires Ok(s) && At(s, id)
    ensures Files(ThreadStep(s, id, a)) && WriteOnce(s, ThreadStep(s, id, a))
  {
    hide Files, Single;
    match a
    case Consume(_) => ConsumeFiles(s, id);
    case OpenTemp(_) => OpenTempFiles(s, id);
    case Replace(_) => ReplaceFiles(s, id);
    case PutArtifact(_) => if s.threads[id].phase.UpWritten? { PutFiles(s, id); }
    case CheckSize(_) => CheckSizeFiles(s, id);
    case ReadFile(_) => if s.threads[id].phase.DownSized? { FetchFiles(s, id); }
    case Fail(_) => FailFiles(s, id);
    case _ =>
  }

  lemma CrashFiles(s: System)
    requires Files(s)
    ensures Files(s.(threads := map[]))
  {
    hide TraceOk, OneUploadGrant, GrantsOk;
    SameFiles(s, s.(threads := map[]));
  }

  lemma StepFiles(s: System, a: Action)
    requires Ok(s) && Disciplined(a)
    ensures Ok(Step(s, a)) && WriteOnce(s, Step(s, a))
  {
    StepKeeps(s, a);
    hide Files, Single, ThreadStep, IssueGrant, Verified, IsNew, Owns;
    match a
    case Issue(_, _, _, _, _, _, _, _, _, _) => IssueFiles(s, a);
    case IssueDownload(_, _, _, _, _, _, _, _) => IssueDownloadFiles(s, a);
    case BeginUpload(_, _, _, _, _, _, _) => BeginFiles(s, a);
    case BeginDownload(_, _, _, _, _) => BeginFiles(s, a);
    case Crash => CrashFiles(s);
    case _ => if At(s, a.id) { ThreadStepFiles(s, a.id, a); }
  }

  lemma {:induction false} RunFiles(s: System, actions: seq<Action>)
    requires Ok(s) && AllDisciplined(actions)
    ensures Ok(Run(s, actions)) && WriteOnce(s, Run(s, actions))
  {
    if actions != [] {
      var before := actions[..|actions| - 1];
      RunFiles(s, before);
      hide Ok, Step;
      StepFiles(Run(s, before), actions[|actions| - 1]);
    }
  }

  lemma InitOk()
    ensures Ok(Init())
  {
  }

  /** From any reachable state on, no artifact file is ever changed or removed. */
  lemma ArtifactsAreWriteOnce(first: seq<Action>, more: seq<Action>)
    requires AllDisciplined(first) && AllDisciplined(more)
    ensures WriteOnce(Run(Init(), first), Run(Run(Init(), first), more))
  {
    InitOk();
    RunFiles(Init(), first);
    RunFiles(Run(Init(), first), more);
  }

  /**
   Every successful download returns the bytes of an earlier successful upload of that artifact, by the
   same device in the same workspace and of the same type, and that upload is the only one the artifact has.
   */
  lemma DownloadsReturnTheUpload(actions: seq<Action>, i: nat)
    requires AllDisciplined(actions)
    requires var s := Run(Init(), actions); i < |s.trace| && s.trace[i].Fetched?
    ensures var s := Run(Init(), actions);
      exists j :: UploadOf(s.grants, s.trace, j, i)
        && forall k :: UploadedAt(s.grants, s.trace, k, s.grants[s.trace[i].grant].artifact) ==> k == j
  {
    InitOk();
    RunFiles(Init(), actions);
    var s := Run(Init(), actions);
    var j :| UploadOf(s.grants, s.trace, j, i);
    forall k | UploadedAt(s.grants, s.trace, k, s.grants[s.trace[i].grant].artifact)
      ensures k == j
    {
      assert EventOk(s.grants, s.trace[k]) && EventOk(s.grants, s.trace[j]);
    }
  }

  /**
   A download that has spent its grant succeeds exactly when the grant covers the whole artifact; one
   issued for fewer bytes is spent for nothing.  An empty artifact has no download grant at all.
   */
  lemma DownloadIff(actions: seq<Action>, id: nat)
    requires AllDisciplined(actions)
    requires var s := Run(Init(), actions); At(s, id) && s.threads[id].phase.DownConsumed?
    ensures var s := Run(Init(), actions);
      var g := s.grants[s.threads[id].grant];
      && g.artifact in s.artifacts && s.artifacts[g.artifact].size > 0
      && (|Step(Step(s, CheckSize(id)), ReadFile(id)).trace| == |s.trace| + 1
          <==> g.maxBytes == s.artifacts[g.artifact].size)
  {
    InitOk();
    RunFiles(Init(), actions);
    hide Ok, Step, Run;
    StoredSize(Run(Init(), actions), id);
    FetchSteps(Run(Init(), actions), id);
  }

  lemma StoredSize(s: System, id: nat)
    requires Ok(s) && At(s, id) && s.threads[id].phase.DownConsumed?
    ensures var g := s.grants[s.threads[id].grant];
      && g.artifact in s.artifacts && 0 < g.maxBytes <= s.artifacts[g.artifact].size
      && g.artifact in s.files && |s.files[g.artifact]| == s.artifacts[g.artifact].size
  {
    var g := s.grants[s.threads[id].grant];
    ThreadIsOk(s, id);
    assert GrantFiles(s, g);
    hide Single;
    var k :| UploadedAt(s.grants, s.trace, k, g.artifact);
    assert StoredFiles(s, s.trace[k]);
  }

  lemma FetchSteps(s: System, id: nat)
    requires At(s, id) && s.threads[id].phase.DownConsumed?
    ensures |Step(Step(s, CheckSize(id)), ReadFile(id)).trace| == |s.trace| + 1 <==> FitsGrant(s, id)
  {
    hide IssueGrant, Verified, IsNew, Owns;
  }

  // ---- why the discipline is needed ---------------------------------------

  function SomeGrant(a: string): Grant { Grant(a, "d", "w", Upload, "text/plain", 10, 1.0, false) }

  function IssueFor(g: string, newId: string, given: Option<string>): Action {
    Issue(g, newId, given, "d", "w", Upload, "text/plain", 10, 1.0, 0.0)
  }

  function Begin(g: string, a: string, id: nat, data: Bytes): Action {
    BeginUpload(id, Some(ClaimsOf(g, SomeGrant(a))), "d", "w", "text/plain", data, 0.0)
  }

  lemma RunPush(s: System, before: seq<Action>, a: Action)
    ensures Run(s, before + [a]) == Step(Run(s, before), a)
  {
    hide Step;
    assert (before + [a])[..|before + [a]| - 1] == before;
  }

  lemma RunFive(s: System, a: Action, b: Action, c: Action, d: Action, e: Action)
    ensures Run(s, [a, b, c, d, e]) == Step(Step(Step(Step(Step(s, a), b), c), d), e)
  {
    assert Run(s, []) == s;
    hide Step, Run;
    RunPush(s, [], a);
    RunPush(s, [a], b);
    RunPush(s, [a, b], c);
    RunPush(s, [a, b, c], d);
    RunPush(s, [a, b, c, d], e);
    assert [] + [a] == [a] && [a] + [b] == [a, b] && [a, b] + [c] == [a, b, c];
    assert [a, b, c] + [d] == [a, b, c, d] && [a, b, c, d] + [e] == [a, b, c, d, e];
  }

  lemma UploadSteps(s: System, g: string, a: string, id: nat, data: Bytes)
    requires g in s.grants && s.grants[g] == SomeGrant(a) && id !in s.threads && a !in s.temps && |data| <= 10
    ensures var s' := Step(Step(Step(Step(s, Begin(g, a, id, data)), Consume(id)), OpenTemp(id)), Replace(id));
      && s'.files == s.files[a := data] && s'.temps == s.temps && s'.artifacts == s.artifacts
      && s'.grants == s.grants[g := SomeGrant(a).(used := true)] && s'.threads.Keys == s.threads.Keys + {id}
  {
    hide IsNew, IssueGrant, Owns, Run, Step;
    var th := Thread(g, "d", "w", 0.0, UpVerified(data));
    BeginStep(s, g, a, id, data);
    ConsumeUpload(s.(threads := s.threads[id := th]), id);
    var grants := s.grants[g := SomeGrant(a).(used := true)];
    var s3 := s.(grants := grants, threads := s.threads[id := th.(phase := UpConsumed(data))]);
    assert Step(Step(s, Begin(g, a, id, data)), Consume(id)) == s3;
    OpenAndReplace(s3, id, a);
  }

  lemma BeginStep(s: System, g: string, a: string, id: nat, data: Bytes)
    requires g in s.grants && s.grants[g] == SomeGrant(a) && id !in s.threads && |data| <= 10
    ensures Step(s, Begin(g, a, id, data)) == s.(threads := s.threads[id := Thread(g, "d", "w", 0.0, UpVerified(data))])
  {
    hide IsNew, IssueGrant, Owns, ThreadStep;
  }

  lemma ConsumeUpload(s: System, id: nat)
    requires At(s, id) && s.threads[id].phase.UpVerified? && !s.grants[s.threads[id].grant].used
    ensures var th := s.threads[id];
      Step(s, Consume(id)) == s.(grants := s.grants[th.grant := s.grants[th.grant].(used := true)],
                                 threads := s.threads[id := th.(phase := UpConsumed(th.phase.data))])
  {
    hide IsNew, IssueGrant, Owns, Verified;
  }

  lemma OpenAndReplace(s: System, id: nat, a: string)
    requires At(s, id) && ArtifactOf(s, id) == a && s.threads[id].phase.UpConsumed? && a !in s.temps
    ensures var s' := Step(Step(s, OpenTemp(id)), Replace(id));
      && s'.files == s.files[a := s.threads[id].phase.data] && s'.temps == s.temps && s'.artifacts == s.artifacts
      && s'.grants == s.grants && s'.threads.Keys == s.threads.Keys
  {
    hide IsNew, IssueGrant, Owns, Verified;
  }

  /** An upload on a new grant of `a` puts its bytes into the file, whether or not the file exists. */
  lemma UploadWrites(s: System, g: string, newId: string, given: Option<string>, a: string, id: nat, data: Bytes)
    requires IsNew(s, g, newId) && id !in s.threads && a !in s.temps && |data| <= 10
    requires a == if given.Some? && given.value != "" then given.value else newId
    ensures var s' := Run(s, [IssueFor(g, newId, given), Begin(g, a, id, data), Consume(id), OpenTemp(id), Replace(id)]);
      && s'.files == s.files[a := data] && s'.temps == s.temps && s'.artifacts == s.artifacts
      && s'.grants == s.grants[g := SomeGrant(a).(used := true)] && s'.threads.Keys == s.threads.Keys + {id}
  {
    hide IsNew, Run, Verified, Owns, ThreadStep;
    RunFive(s, IssueFor(g, newId, given), Begin(g, a, id, data), Consume(id), OpenTemp(id), Replace(id));
    var s1 := Step(s, IssueFor(g, newId, given));
    assert s1 == s.(grants := s.grants[g := SomeGrant(a)]);
    UploadSteps(s1, g, a, id, data);
  }

  /** An upload on a new grant of `a` that finds a temporary file of `a` fails and changes no file. */
  lemma UploadBlocked(s: System, g: string, newId: string, a: string, id: nat, data: Bytes)
    requires IsNew(s, g, newId) && id !in s.threads && a in s.temps && |data| <= 10 && a != ""
    ensures Run(s, Reissue(g, newId, a, id, data)).files == s.files
  {
    hide IsNew, Run, Verified, Owns, ThreadStep;
    RunFive(s, IssueFor(g, newId, Some(a)), Begin(g, a, id, data), Consume(id), OpenTemp(id), Replace(id));
    var s1 := s.(grants := s.grants[g := SomeGrant(a)]);
    assert Step(s, IssueFor(g, newId, Some(a))) == s1;
    BlockedSteps(s1, g, a, id, data);
  }

  lemma BlockedSteps(s: System, g: string, a: string, id: nat, data: Bytes)
    requires g in s.grants && s.grants[g] == SomeGrant(a) && id !in s.threads && a in s.temps && |data| <= 10
    ensures Step(Step(Step(Step(s, Begin(g, a, id, data)), Consume(id)), OpenTemp(id)), Replace(id)).files == s.files
  {
    hide IsNew, IssueGrant, Owns, Run, Step;
    var th := Thread(g, "d", "w", 0.0, UpVerified(data));
    BeginStep(s, g, a, id, data);
    var s2 := s.(threads := s.threads[id := th]);
    ConsumeUpload(s2, id);
    OpenBlocked(Step(s2, Consume(id)), id, a);
  }

  lemma OpenBlocked(s: System, id: nat, a: string)
    requires At(s, id) && ArtifactOf(s, id) == a && s.threads[id].phase.UpConsumed? && a in s.temps
    ensures Step(Step(s, OpenTemp(id)), Replace(id)).files == s.files
  {
    hide IsNew, IssueGrant, Owns, Verified;
  }

  /** An upload grant issued for the given id `a`, and an upload of `data` on it. */
  function Reissue(g: string, newId: string, a: string, id: nat, data: Bytes): seq<Action> {
    [IssueFor(g, newId, Some(a)), Begin(g, a, id, data), Consume(id), OpenTemp(id), Replace(id)]
  }

  /**
   In every state the service's way of issuing reaches: an upload grant for a given id lets an upload
   change a stored file exactly if that id is stored, with other bytes.
   */
  lemma ReissueOverwritesIff(s: System, g: string, newId: string, a: string, id: nat, data: Bytes)
    requires Ok(s) && IsNew(s, g, newId) && id !in s.threads && a != "" && |data| <= 10
    ensures WriteOnce(s, Run(s, Reissue(g, newId, a, id, data))) <==> a !in s.files || s.files[a] == data
  {
    hide Run, IsNew;
    OkHasFiles(s);
    if a in s.temps {
      UploadBlocked(s, g, newId, a, id, data);
    } else {
      UploadWrites(s, g, newId, Some(a), a, id, data);
    }
  }

  function FirstUpload(): seq<Action> {
    [IssueFor("g", "a", None), Begin("g", "a", 0, [1]), Consume(0), OpenTemp(0), Replace(0)]
  }

  function SecondUpload(): seq<Action> {
    Reissue("h", "b", "a", 1, [2])
  }

  /** Such a state and such a grant are reached: two uploads, the second on a grant for the first one's id. */
  lemma ReissueOverwrites()
    ensures AllDisciplined(FirstUpload())
    ensures !WriteOnce(Run(Init(), FirstUpload()), Run(Run(Init(), FirstUpload()), SecondUpload()))
  {
    hide Run;
    UploadWrites(Init(), "g", "a", None, "a", 0, [1]);
    var s := Run(Init(), FirstUpload());
    UploadWrites(s, "h", "b", Some("a"), "a", 1, [2]);
    assert s.files["a"] == [1] && Run(s, SecondUpload()).files["a"] == [2];
  }
}
