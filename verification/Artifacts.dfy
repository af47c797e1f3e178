/**
 Artifact transfers: signed single-use grants over a directory of files.  A transfer is a thread whose
 steps are one store transaction or one file operation each; any number of transfers interleave, any
 of them may fail at any point, and the process may crash at any point.  A signature is an equality
 check on the claims: `None` is a ticket whose signature or encoding is rejected.
 */
module Artifacts {
  import opened Basics
  import opened Wrappers

  type Bytes = seq<bv8>

  datatype Operation = Upload | Download

  /** A row of artifact_grants.  Its storage name is the artifact id with a fixed suffix. */
  datatype Grant = Grant(artifact: string, device: string, workspace: string, op: Operation, mime: string,
                         maxBytes: int, expires: real, used: bool)

  datatype Claims = Claims(grant: string, artifact: string, device: string, workspace: string, op: Operation,
                           mime: string, maxBytes: int, expires: real)

  /** A row of artifacts. */
  datatype Artifact = Artifact(device: string, workspace: string, mime: string, size: nat)

  /** Where a transfer stands: after its checks, after its grant is spent, and so on. */
  datatype Phase =
    | UpVerified(data: Bytes)
    | UpConsumed(data: Bytes)
    | UpOpened(data: Bytes)
    | UpWritten(data: Bytes)
    | DownVerified
    | DownConsumed
    | DownSized

  /** A transfer: its grant, who presented the ticket, and when the ticket was checked. */
  datatype Thread = Thread(grant: string, device: string, workspace: string, at: real, phase: Phase)

  /** The transfers that returned normally. */
  datatype Event =
    | Stored(grant: string, device: string, workspace: string, data: Bytes, at: real)
    | Fetched(grant: string, device: string, workspace: string, data: Bytes, at: real)

  datatype System = System(
    grants: map<string, Grant>, artifacts: map<string, Artifact>,
    files: map<string, Bytes>, temps: map<string, Bytes>,
    threads: map<nat, Thread>, trace: seq<Event>)

  const MAX_BYTES := 10 * 1024 * 1024
  const TTL_SECONDS := 300.0
  const MIME_TYPES := {"image/jpeg", "image/png", "audio/wav", "audio/mpeg", "application/pdf",
                       "application/octet-stream", "text/plain"}

  datatype Action =
    | Issue(grant: string, newId: string, given: Option<string>, device: string, workspace: string, op: Operation,
            mime: string, maxBytes: int, ttl: real, now: real)
    | IssueDownload(grant: string, newId: string, artifact: string, device: string, workspace: string,
                    maxBytes: int, ttl: real, now: real)
    | BeginUpload(id: nat, ticket: Option<Claims>, device: string, workspace: string, mime: string, data: Bytes, now: real)
    | BeginDownload(id: nat, ticket: Option<Claims>, device: string, workspace: string, now: real)
    | Consume(id: nat)
    | OpenTemp(id: nat)
    | Replace(id: nat)
    | PutArtifact(id: nat)
    | CheckSize(id: nat)
    | ReadFile(id: nat)
    | Fail(id: nat)
    | Crash

  function Init(): System { System(map[], map[], map[], map[], map[], []) }

  /** A random identifier: not one any grant, row or file already has. */
  predicate IsNew(s: System, grant: string, artifact: string) {
    && grant !in s.grants && artifact !in s.artifacts && artifact !in s.files
    && forall g :: g in s.grants ==> s.grants[g].artifact != artifact
  }

  predicate Issuable(mime: string, maxBytes: int, ttl: real) {
    mime in MIME_TYPES && 0 < maxBytes <= MAX_BYTES && 0.0 < ttl <= TTL_SECONDS
  }

  function IssueGrant(grants: map<string, Grant>, id: string, artifact: string, device: string, workspace: string,
                      op: Operation, mime: string, maxBytes: int, ttl: real, now: real): map<string, Grant> {
    if !Issuable(mime, maxBytes, ttl) then grants
    else grants[id := Grant(artifact, device, workspace, op, mime, maxBytes, now + ttl, false)]
  }

  /** What the download route checks before it issues: a stored artifact of that owner. */
  predicate Owns(s: System, artifact: string, device: string, workspace: string) {
    && artifact in s.artifacts && s.artifacts[artifact].device == device
    && s.artifacts[artifact].workspace == workspace && artifact in s.files
  }

  function ClaimsOf(id: string, g: Grant): Claims {
    Claims(id, g.artifact, g.device, g.workspace, g.op, g.mime, g.maxBytes, g.expires)
  }

  predicate Verified(s: System, ticket: Option<Claims>, device: string, workspace: string, op: Operation, now: real) {
    && ticket.Some? && ticket.value.grant in s.grants
    && var g := s.grants[ticket.value.grant];
    && !g.used && ticket.value == ClaimsOf(ticket.value.grant, g)
    && device == g.device && workspace == g.workspace && op == g.op && now < g.expires
  }

  function Go(s: System, id: nat, phase: Phase): System
    requires id in s.threads
  {
    s.(threads := s.threads[id := s.threads[id].(phase := phase)])
  }

  function Drop(s: System, id: nat): System { s.(threads := s.threads - {id}) }

  function ArtifactOf(s: System, id: nat): string {
    if id in s.threads && s.threads[id].grant in s.grants then s.grants[s.threads[id].grant].artifact else ""
  }

  predicate At(s: System, id: nat) {
    id in s.threads && s.threads[id].grant in s.grants
  }

  /** The update applies to an unused grant only; the other transfers of that grant get nothing. */
  function ConsumeStep(s: System, id: nat): System
    requires At(s, id)
  {
    var th := s.threads[id];
    if !(th.phase.UpVerified? || th.phase.DownVerified?) then s
    else if s.grants[th.grant].used then Drop(s, id)
    else
      var spent := s.(grants := s.grants[th.grant := s.grants[th.grant].(used := true)]);
      Go(spent, id, if th.phase.UpVerified? then UpConsumed(th.phase.data) else DownConsumed)
  }

  /** Exclusive creation; a failure removes the temporary file, whoever made it. */
  function OpenTempStep(s: System, id: nat): System
    requires At(s, id)
  {
    var th, a := s.threads[id], ArtifactOf(s, id);
    if !th.phase.UpConsumed? then s
    else if a in s.temps then Drop(s, id).(temps := s.temps - {a})
    else Go(s, id, UpOpened(th.phase.data)).(temps := s.temps[a := th.phase.data])
  }

  function ReplaceStep(s: System, id: nat): System
    requires At(s, id)
  {
    var th, a := s.threads[id], ArtifactOf(s, id);
    if !th.phase.UpOpened? then s
    else if a !in s.temps then Drop(s, id)
    else Go(s, id, UpWritten(th.phase.data)).(files := s.files[a := s.temps[a]], temps := s.temps - {a})
  }

  function PutArtifactStep(s: System, id: nat): System
    requires At(s, id)
  {
    var th, a := s.threads[id], ArtifactOf(s, id);
    if !th.phase.UpWritten? then s
    else if a in s.artifacts then Drop(s, id)
    else
      var g := s.grants[th.grant];
      Drop(s, id).(artifacts := s.artifacts[a := Artifact(g.device, g.workspace, g.mime, |th.phase.data|)],
                   trace := s.trace + [Stored(th.grant, th.device, th.workspace, th.phase.data, th.at)])
  }

  predicate FitsGrant(s: System, id: nat)
    requires At(s, id)
  {
    var a := ArtifactOf(s, id);
    a in s.files && |s.files[a]| <= s.grants[s.threads[id].grant].maxBytes
  }

  function CheckSizeStep(s: System, id: nat): System
    requires At(s, id)
  {
    if !s.threads[id].phase.DownConsumed? then s
    else if FitsGrant(s, id) then Go(s, id, DownSized) else Drop(s, id)
  }

  function ReadFileStep(s: System, id: nat): System
    requires At(s, id)
  {
    var th := s.threads[id];
    if !th.phase.DownSized? then s
    else if FitsGrant(s, id)
    then Drop(s, id).(trace := s.trace + [Fetched(th.grant, th.device, th.workspace, s.files[ArtifactOf(s, id)], th.at)])
    else Drop(s, id)
  }

  function FailStep(s: System, id: nat): System
    requires At(s, id)
  {
    var p := s.threads[id].phase;
    if p.UpConsumed? || p.UpOpened? then Drop(s, id).(temps := s.temps - {ArtifactOf(s, id)}) else Drop(s, id)
  }

  function ThreadStep(s: System, id: nat, a: Action): System
    requires At(s, id)
  {
    match a
    case Consume(_) => ConsumeStep(s, id)
    case OpenTemp(_) => OpenTempStep(s, id)
    case Replace(_) => ReplaceStep(s, id)
    case PutArtifact(_) => PutArtifactStep(s, id)
    case CheckSize(_) => CheckSizeStep(s, id)
    case ReadFile(_) => ReadFileStep(s, id)
    case Fail(_) => FailStep(s, id)
    case _ => s
  }

  function Step(s: System, a: Action): System {
    match a
    case Issue(grant, newId, given, device, workspace, op, mime, maxBytes, ttl, now) =>
      if !IsNew(s, grant, newId) then s
      else
        var id := if given.Some? && given.value != "" then given.value else newId;
        s.(grants := IssueGrant(s.grants, grant, id, device, workspace, op, mime, maxBytes, ttl, now))
    case IssueDownload(grant, newId, artifact, device, workspace, maxBytes, ttl, now) =>
      if !IsNew(s, grant, newId) || !Owns(s, artifact, device, workspace) then s
      else
        var row := s.artifacts[artifact];
        s.(grants := IssueGrant(s.grants, grant, artifact, device, workspace, Download, row.mime,
                                Min(maxBytes, row.size), ttl, now))
    case BeginUpload(id, ticket, device, workspace, mime, data, now) =>
      if id in s.threads || !Verified(s, ticket, device, workspace, Upload, now) then s
      else if mime != ticket.value.mime || |data| > ticket.value.maxBytes then s
      else s.(threads := s.threads[id := Thread(ticket.value.grant, device, workspace, now, UpVerified(data))])
    case BeginDownload(id, ticket, device, workspace, now) =>
      if id in s.threads || !Verified(s, ticket, device, workspace, Download, now) then s
      else s.(threads := s.threads[id := Thread(ticket.value.grant, device, workspace, now, DownVerified)])
    case Crash => s.(threads := map[])
    case _ => if At(s, a.id) then ThreadStep(s, a.id, a) else s
  }

  function Run(s: System, actions: seq<Action>): System {
    if actions == [] then s
    else Step(Run(s, actions[..|actions| - 1]), actions[|actions| - 1])
  }

  // ---- every grant is spent at most once ----------------------------------

  predicate Spending(p: Phase) {
    p.UpConsumed? || p.UpOpened? || p.UpWritten? || p.DownConsumed? || p.DownSized?
  }

  predicate Uploading(p: Phase) {
    p.UpVerified? || p.UpConsumed? || p.UpOpened? || p.UpWritten?
  }

  /** The checks a transfer passed when it began still hold of its grant. */
  predicate ThreadOk(grants: map<string, Grant>, th: Thread) {
    && th.grant in grants
    && var g := grants[th.grant];
    && g.op == (if Uploading(th.phase) then Upload else Download)
    && th.at < g.expires && th.device == g.device && th.workspace == g.workspace
    && (Spending(th.phase) ==> g.used)
    && (Uploading(th.phase) ==> |th.phase.data| <= g.maxBytes)
  }

  predicate EventOk(grants: map<string, Grant>, e: Event) {
    && e.grant in grants
    && var g := grants[e.grant];
    && g.used && g.op == (if e.Stored? then Upload else Download)
    && e.at < g.expires && |e.data| <= g.maxBytes && e.device == g.device && e.workspace == g.workspace
  }

  predicate OneSpender(threads: map<nat, Thread>) {
    forall t, u :: t in threads && u in threads && t != u && Spending(threads[t].phase) && Spending(threads[u].phase)
      ==> threads[t].grant != threads[u].grant
  }

  predicate SpenderIsNew(threads: map<nat, Thread>, trace: seq<Event>) {
    forall t, i :: t in threads && 0 <= i < |trace| && Spending(threads[t].phase) ==> threads[t].grant != trace[i].grant
  }

  predicate OncePerGrant(trace: seq<Event>) {
    forall i, j :: 0 <= i < j < |trace| ==> trace[i].grant != trace[j].grant
  }

  ghost predicate Single(s: System) {
    && (forall t :: t in s.threads ==> ThreadOk(s.grants, s.threads[t]))
    && (forall i :: 0 <= i < |s.trace| ==> EventOk(s.grants, s.trace[i]))
    && OneSpender(s.threads)
    && SpenderIsNew(s.threads, s.trace)
    && OncePerGrant(s.trace)
  }

  /** Grants are never deleted or edited, except that they become used. */
  ghost predicate Later(grants: map<string, Grant>, grants': map<string, Grant>) {
    forall g :: g in grants ==> g in grants' && (grants'[g] == grants[g] || grants'[g] == grants[g].(used := true))
  }

  lemma IssueKeeps(s: System, s': System)
    requires Single(s) && Later(s.grants, s'.grants) && s'.threads == s.threads && s'.trace == s.trace
    ensures Single(s')
  {
  }

  lemma BeginKeeps(s: System, id: nat, th: Thread)
    requires Single(s) && id !in s.threads && ThreadOk(s.grants, th) && !Spending(th.phase)
    ensures Single(s.(threads := s.threads[id := th]))
  {
  }

  lemma DropKeeps(s: System, s': System, id: nat)
    requires Single(s) && s'.threads == s.threads - {id} && s'.trace == s.trace && s'.grants == s.grants
    ensures Single(s')
  {
  }

  lemma SpendKeeps(s: System, id: nat, phase: Phase)
    requires Single(s) && id in s.threads && !Spending(s.threads[id].phase) && Spending(phase)
    requires Uploading(phase) == Uploading(s.threads[id].phase)
    requires Uploading(phase) ==> phase.data == s.threads[id].phase.data
    requires ThreadOk(s.grants, s.threads[id].(phase := phase))
    requires forall t :: t in s.threads && Spending(s.threads[t].phase) ==> s.threads[t].grant != s.threads[id].grant
    requires forall i :: 0 <= i < |s.trace| ==> s.trace[i].grant != s.threads[id].grant
    ensures Single(Go(s, id, phase))
  {
    hide ThreadOk, EventOk, Spending;
  }

  /** An unused grant is held by no transfer and has no success. */
  lemma UnusedIsFree(s: System, g: string)
    requires Single(s) && g in s.grants && !s.grants[g].used
    ensures forall t :: t in s.threads && Spending(s.threads[t].phase) ==> s.threads[t].grant != g
    ensures forall i :: 0 <= i < |s.trace| ==> s.trace[i].grant != g
  {
    forall t | t in s.threads && Spending(s.threads[t].phase)
      ensures s.threads[t].grant != g
    {
      assert ThreadOk(s.grants, s.threads[t]);
    }
    forall i | 0 <= i < |s.trace|
      ensures s.trace[i].grant != g
    {
      assert EventOk(s.grants, s.trace[i]);
    }
  }

  lemma ConsumeKeeps(s: System, id: nat)
    requires Single(s) && At(s, id)
    ensures Single(ConsumeStep(s, id)) && Later(s.grants, ConsumeStep(s, id).grants)
  {
    ThreadIsOk(s, id);
    hide Single;
    var th := s.threads[id];
    if (th.phase.UpVerified? || th.phase.DownVerified?) && !s.grants[th.grant].used {
      UnusedIsFree(s, th.grant);
      var spent := s.(grants := s.grants[th.grant := s.grants[th.grant].(used := true)]);
      IssueKeeps(s, spent);
      SpendKeeps(spent, id, if th.phase.UpVerified? then UpConsumed(th.phase.data) else DownConsumed);
    } else {
      DropKeeps(s, Drop(s, id), id);
    }
  }

  /** A transfer that has its grant moves on, changing files only. */
  lemma MoveKeeps(s: System, s': System, id: nat, phase: Phase)
    requires Single(s) && id in s.threads && Spending(s.threads[id].phase) && Spending(phase)
    requires Uploading(phase) == Uploading(s.threads[id].phase)
    requires Uploading(phase) ==> phase.data == s.threads[id].phase.data
    requires s'.threads == Go(s, id, phase).threads && s'.trace == s.trace && s'.grants == s.grants
    ensures Single(s')
  {
  }

  lemma FinishKeeps(s: System, s': System, id: nat, e: Event)
    requires Single(s) && id in s.threads && Spending(s.threads[id].phase)
    requires e.grant == s.threads[id].grant && EventOk(s.grants, e)
    requires s'.threads == s.threads - {id} && s'.trace == s.trace + [e] && s'.grants == s.grants
    ensures Single(s')
  {
  }

  lemma OpenTempKeeps(s: System, id: nat)
    requires Single(s) && At(s, id)
    ensures Single(OpenTempStep(s, id))
  {
    hide Single;
    var s', p := OpenTempStep(s, id), s.threads[id].phase;
    if p.UpConsumed? {
      if ArtifactOf(s, id) in s.temps { DropKeeps(s, s', id); } else { MoveKeeps(s, s', id, UpOpened(p.data)); }
    }
  }

  lemma ReplaceKeeps(s: System, id: nat)
    requires Single(s) && At(s, id)
    ensures Single(ReplaceStep(s, id))
  {
    hide Single;
    var s', p := ReplaceStep(s, id), s.threads[id].phase;
    if p.UpOpened? {
      if ArtifactOf(s, id) in s.temps { MoveKeeps(s, s', id, UpWritten(p.data)); } else { DropKeeps(s, s', id); }
    }
  }

  lemma ThreadIsOk(s: System, id: nat)
    requires Single(s) && id in s.threads
    ensures ThreadOk(s.grants, s.threads[id])
  {
  }

  lemma PutArtifactKeeps(s: System, id: nat)
    requires Single(s) && At(s, id)
    ensures Single(PutArtifactStep(s, id))
  {
    ThreadIsOk(s, id);
    hide Single;
    var s', th := PutArtifactStep(s, id), s.threads[id];
    if th.phase.UpWritten? {
      if ArtifactOf(s, id) in s.artifacts { DropKeeps(s, s', id); }
      else { FinishKeeps(s, s', id, Stored(th.grant, th.device, th.workspace, th.phase.data, th.at)); }
    }
  }

  lemma ReadFileKeeps(s: System, id: nat)
    requires Single(s) && At(s, id)
    ensures Single(ReadFileStep(s, id))
  {
    ThreadIsOk(s, id);
    hide Single;
    var s', th := ReadFileStep(s, id), s.threads[id];
    if th.phase.DownSized? {
      if FitsGrant(s, id) { FinishKeeps(s, s', id, Fetched(th.grant, th.device, th.workspace, s.files[ArtifactOf(s, id)], th.at)); }
      else { DropKeeps(s, s', id); }
    }
  }

  lemma ThreadStepKeeps(s: System, id: nat, a: Action)
    requires Single(s) && At(s, id)
    ensures Single(ThreadStep(s, id, a))
  {
    hide Single, ConsumeStep, OpenTempStep, ReplaceStep, PutArtifactStep, ReadFileStep;
    match a
    case Consume(_) => ConsumeKeeps(s, id);
    case OpenTemp(_) => OpenTempKeeps(s, id);
    case Replace(_) => ReplaceKeeps(s, id);
    case PutArtifact(_) => PutArtifactKeeps(s, id);
    case CheckSize(_) =>
      if s.threads[id].phase.DownConsumed? {
        if FitsGrant(s, id) { MoveKeeps(s, CheckSizeStep(s, id), id, DownSized); }
        else { DropKeeps(s, CheckSizeStep(s, id), id); }
      }
    case ReadFile(_) => ReadFileKeeps(s, id);
    case Fail(_) => DropKeeps(s, FailStep(s, id), id);
    case _ =>
  }

  lemma StepKeeps(s: System, a: Action)
    requires Single(s)
    ensures Single(Step(s, a))
  {
    hide Single, ThreadStep, Verified, Issuable, Owns, IsNew;
    match a
    case Issue(_, _, _, _, _, _, _, _, _, _) => IssueStepKeeps(s, a);
    case IssueDownload(_, _, _, _, _, _, _, _) => IssueStepKeeps(s, a);
    case BeginUpload(_, _, _, _, _, _, _) => BeginStepKeeps(s, a);
    case BeginDownload(_, _, _, _, _) => BeginStepKeeps(s, a);
    case Crash => CrashKeeps(s);
    case _ => if At(s, a.id) { ThreadStepKeeps(s, a.id, a); }
  }

  lemma CrashKeeps(s: System)
    requires Single(s)
    ensures Single(s.(threads := map[]))
  {
  }

  lemma IssueStepKeeps(s: System, a: Action)
    requires Single(s) && (a.Issue? || a.IssueDownload?)
    ensures Single(Step(s, a))
  {
    hide Single;
    IssueKeeps(s, Step(s, a));
  }

  lemma BeginStepKeeps(s: System, a: Action)
    requires Single(s) && (a.BeginUpload? || a.BeginDownload?)
    ensures Single(Step(s, a))
  {
    hide Single;
    if Step(s, a) != s { BeginKeeps(s, a.id, Step(s, a).threads[a.id]); }
  }

  lemma {:induction false} RunKeeps(actions: seq<Action>)
    ensures Single(Run(Init(), actions))
  {
    if actions != [] {
      RunKeeps(actions[..|actions| - 1]);
      hide Single, Step;
      StepKeeps(Run(Init(), actions[..|actions| - 1]), actions[|actions| - 1]);
    }
  }

  /**
   Over every run, a grant yields at most one successful transfer, of the kind and for the caller it was
   issued for, of no more bytes, and on a ticket that was checked before the grant expired.
   */
  lemma SingleUse(actions: seq<Action>)
    ensures var s := Run(Init(), actions);
      && (forall i, j :: 0 <= i < j < |s.trace| ==> s.trace[i].grant != s.trace[j].grant)
      && (forall i :: 0 <= i < |s.trace| ==> EventOk(s.grants, s.trace[i]))
  {
    RunKeeps(actions);
  }

  // ---- a transfer that does not come to its end ---------------------------

  /** The grant is spent, no transfer holds it, and none that held it returned. */
  predicate Lost(s: System, g: string) {
    && g in s.grants && s.grants[g].used
    && (forall t :: t in s.threads && s.threads[t].grant == g ==> !Spending(s.threads[t].phase))
    && (forall i :: 0 <= i < |s.trace| ==> s.trace[i].grant != g)
  }

  lemma LostThreadStep(s: System, id: nat, a: Action, g: string)
    requires Lost(s, g) && At(s, id)
    ensures Lost(ThreadStep(s, id, a), g)
  {
  }

  lemma LostStep(s: System, a: Action, g: string)
    requires Lost(s, g)
    ensures Lost(Step(s, a), g)
  {
    hide ThreadStep, Verified, Issuable, Owns;
    match a
    case Issue(_, _, _, _, _, _, _, _, _, _) =>
    case IssueDownload(_, _, _, _, _, _, _, _) =>
    case BeginUpload(_, _, _, _, _, _, _) =>
    case BeginDownload(_, _, _, _, _) =>
    case Crash =>
    case _ => if At(s, a.id) { LostThreadStep(s, a.id, a, g); }
  }

  lemma {:induction false} LostRun(s: System, actions: seq<Action>, g: string)
    requires Lost(s, g)
    ensures Lost(Run(s, actions), g)
  {
    hide Step, Lost;
    if actions != [] {
      LostRun(s, actions[..|actions| - 1], g);
      LostStep(Run(s, actions[..|actions| - 1]), actions[|actions| - 1], g);
    }
  }

  /**
   A transfer that fails or is cut off by a crash after its grant was spent: it is gone at once, files and rows
   stay as they are, a temporary file it may have made is removed only by the failure, and over every run that
   follows no transfer on that grant succeeds.
   */
  lemma CutOffIsFinal(s: System, id: nat, crash: bool, actions: seq<Action>)
    requires Single(s) && At(s, id) && Spending(s.threads[id].phase)
    ensures var g, p := s.threads[id].grant, s.threads[id].phase;
      var s' := Step(s, if crash then Crash else Fail(id));
      && s' == s.(threads := if crash then map[] else s.threads - {id}, temps := s'.temps)
      && s'.temps == (if !crash && (p.UpConsumed? || p.UpOpened?) then s.temps - {s.grants[g].artifact} else s.temps)
      && forall i :: 0 <= i < |Run(s', actions).trace| ==> Run(s', actions).trace[i].grant != g
  {
    var g := s.threads[id].grant;
    ThreadIsOk(s, id);
    SpenderAlone(s, id);
    var s' := Step(s, if crash then Crash else Fail(id));
    LostRun(s', actions, g);
  }

  lemma SpenderAlone(s: System, id: nat)
    requires Single(s) && id in s.threads && Spending(s.threads[id].phase)
    ensures forall t :: t in s.threads && t != id && s.threads[t].grant == s.threads[id].grant ==> !Spending(s.threads[t].phase)
    ensures forall i :: 0 <= i < |s.trace| ==> s.trace[i].grant != s.threads[id].grant
  {
  }
}
