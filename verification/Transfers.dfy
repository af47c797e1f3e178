/**
 The artifact transfer service, one call at a time, over the store's tables and the files of its
 directory.  Files and temporary files are keyed by artifact id.  Each call is tied to the steps that
 `Artifacts` interleaves.
 */
module Transfers {
  import opened Basics
  import opened Wrappers
  import opened Artifacts
  import Store

  datatype TransferError = NotIssuable | Unavailable | OwnerMismatch | BadTicket | TypeMismatch | TooLarge | StoreRefused

  /** The ticket, the type and the size pass. */
  predicate Accepted(s: System, ticket: Option<Claims>, device: string, workspace: string, mime: string, data: Bytes, now: real) {
    Verified(s, ticket, device, workspace, Upload, now) && mime == ticket.value.mime && |data| <= ticket.value.maxBytes
  }

  /**
   What becomes of an accepted upload: the grant is spent; a temporary file in the way is removed and
   nothing written; otherwise the file holds the data, and the row is added unless there is one.
   */
  function Uploaded(s: System, g: string, device: string, workspace: string, data: Bytes, now: real): System
    requires g in s.grants
  {
    var grant, a := s.grants[g], s.grants[g].artifact;
    var spent := s.(grants := s.grants[g := grant.(used := true)]);
    if a in s.temps then spent.(temps := s.temps - {a})
    else if a in s.artifacts then spent.(files := s.files[a := data])
    else spent.(files := s.files[a := data],
                artifacts := s.artifacts[a := Artifact(grant.device, grant.workspace, grant.mime, |data|)],
                trace := s.trace + [Stored(g, device, workspace, data, now)])
  }

  class ArtifactTransferService {
    const store: Store.GatewayStore
    var files: map<string, Bytes>
    var temps: map<string, Bytes>

    constructor (store: Store.GatewayStore)
      ensures this.store == store && files == map[] && temps == map[]
    {
      this.store, files, temps := store, map[], map[];
    }

    /** The protocol state in which no transfer is under way. */
    ghost function View(trace: seq<Artifacts.Event>): System
      reads this, store
    {
      System(store.grants, store.artifacts, files, temps, map[], trace)
    }

    /** Grants reference known devices, which are never deleted. */
    ghost predicate ForeignKey()
      reads store
    {
      forall g :: g in store.grants ==> store.grants[g].device in store.devices
    }

    /** `id` and `newId` are random identifiers. */
    method Issue(id: string, newId: string, given: Option<string>, device: string, workspace: string, op: Operation,
                 mime: string, maxBytes: int, ttl: real, now: real) returns (r: Result<Claims, TransferError>)
      modifies store`grants
      ensures r.Ok? <==>
        && mime in MIME_TYPES && 0 < maxBytes <= 10 * 1024 * 1024 && 0.0 < ttl <= 300.0
        && device in store.devices && id !in old(store.grants)
      ensures r.Ok? ==> r.value == Claims(id, if given in {None, Some("")} then newId else given.value, device, workspace, op,
                                          mime, maxBytes, now + ttl)
      ensures r.Ok? ==>
        var a := if given.Some? && given.value != "" then given.value else newId;
        && store.grants == IssueGrant(old(store.grants), id, a, device, workspace, op, mime, maxBytes, ttl, now)
        && r.value == ClaimsOf(id, store.grants[id]) && !store.grants[id].used
      ensures r.Err? ==> store.grants == old(store.grants)
      ensures old(ForeignKey()) ==> ForeignKey()
    {
      if !Issuable(mime, maxBytes, ttl) { return Err(NotIssuable); }
      var a := if given.Some? && given.value != "" then given.value else newId;
      var grant := Grant(a, device, workspace, op, mime, maxBytes, now + ttl, false);
      var error := store.PutArtifactGrant(id, grant);
      if error.Some? { return Err(StoreRefused); }
      r := Ok(ClaimsOf(id, grant));
    }

    /**
     A download grant is issued to the owner of a stored artifact, for at most its size.  The empty
     string stands for every identifier that does not parse.
     */
    method IssueForDownload(id: string, newId: string, artifact: string, device: string, workspace: string,
                            maxBytes: int, ttl: real, now: real) returns (r: Result<Claims, TransferError>)
      modifies store`grants
      ensures r.Ok? <==> (
        && artifact != "" && artifact in store.artifacts && artifact in files
        && store.artifacts[artifact].device == device && store.artifacts[artifact].workspace == workspace
        && Issuable(store.artifacts[artifact].mime, Min(maxBytes, store.artifacts[artifact].size), ttl)
        && device in store.devices && id !in old(store.grants))
      ensures r.Ok? ==>
        var row := store.artifacts[artifact];
        && store.grants == IssueGrant(old(store.grants), id, artifact, device, workspace, Download, row.mime,
                                      Min(maxBytes, row.size), ttl, now)
        && id in store.grants && r.value == ClaimsOf(id, store.grants[id])
      ensures r.Err? ==> store.grants == old(store.grants)
    {
      if artifact == "" { return Err(Unavailable); }
      var row := store.FindArtifact(artifact);
      if row.None? { return Err(Unavailable); }
      if row.value.device != device || row.value.workspace != workspace { return Err(OwnerMismatch); }
      if artifact !in files { return Err(Unavailable); }
      r := Issue(id, newId, Some(artifact), device, workspace, Download, row.value.mime, Min(maxBytes, row.value.size), ttl, now);
    }

    method Verify(ticket: Option<Claims>, device: string, workspace: string, op: Operation, now: real)
      returns (r: Option<Grant>)
      ensures r.Some? <==> Verified(View([]), ticket, device, workspace, op, now)
      ensures r.Some? ==> r.value == store.grants[ticket.value.grant]
    {
      if ticket.None? { return None; }
      var row := store.ArtifactGrant(ticket.value.grant);
      if row.None? || row.value.used { return None; }
      if ticket.value != ClaimsOf(ticket.value.grant, row.value) { return None; }
      if device != row.value.device || workspace != row.value.workspace { return None; }
      if op != row.value.op || now >= row.value.expires { return None; }
      r := row;
    }

    /**
     Spends the grant, writes the bytes through an exclusive temporary file and records the artifact.  A
     ticket, type or size that does not pass changes nothing; whatever comes after that is `Uploaded`.
     */
    method UploadBytes(ticket: Option<Claims>, device: string, workspace: string, mime: string, data: Bytes, now: real)
      returns (r: Result<string, TransferError>)
      requires ForeignKey()
      modifies this, store`grants, store`artifacts
      ensures ForeignKey()
      ensures !Verified(old(View([])), ticket, device, workspace, Upload, now) ==> r == Err(BadTicket)
      ensures Verified(old(View([])), ticket, device, workspace, Upload, now) ==>
        r == if mime != ticket.value.mime then Err(TypeMismatch)
             else if |data| > ticket.value.maxBytes then Err(TooLarge)
             else if ticket.value.artifact in old(temps) then Err(Unavailable)
             else if ticket.value.artifact in old(store.artifacts) then Err(StoreRefused)
             else Ok(ticket.value.artifact)
      ensures !Accepted(old(View([])), ticket, device, workspace, mime, data, now) ==> View([]) == old(View([]))
      ensures Accepted(old(View([])), ticket, device, workspace, mime, data, now) ==>
        var after := Uploaded(old(View([])), ticket.value.grant, device, workspace, data, now);
        View(after.trace) == after
    {
      var row := Verify(ticket, device, workspace, Upload, now);
      if row.None? { return Err(BadTicket); }
      var record := row.value;
      if mime != record.mime { return Err(TypeMismatch); }
      if |data| > record.maxBytes { return Err(TooLarge); }
      var spent := store.ConsumeArtifactGrant(ticket.value.grant);
      var a := record.artifact;
      if a in temps {
        temps := temps - {a};
        return Err(Unavailable);
      }
      temps := temps[a := data];
      files, temps := files[a := temps[a]], temps - {a};
      assert temps == old(temps);
      var error := store.PutArtifact(a, Artifact(device, workspace, mime, |data|));
      if error.Some? { return Err(StoreRefused); }
      r := Ok(a);
    }

    /** Spends the grant first, then reads: a file above the granted size costs the grant for nothing. */
    method DownloadBytes(ticket: Option<Claims>, device: string, workspace: string, now: real)
      returns (r: Result<(Bytes, string), TransferError>)
      modifies store`grants
      ensures r.Ok? <==>
        Verified(old(View([])), ticket, device, workspace, Download, now)
        && ticket.value.artifact in files && |files[ticket.value.artifact]| <= ticket.value.maxBytes
      ensures r.Ok? ==> r.value == (files[ticket.value.artifact], ticket.value.mime)
      ensures store.grants ==
        if Verified(old(View([])), ticket, device, workspace, Download, now)
        then old(store.grants)[ticket.value.grant := old(store.grants)[ticket.value.grant].(used := true)]
        else old(store.grants)
    {
      var row := Verify(ticket, device, workspace, Download, now);
      if row.None? { return Err(BadTicket); }
      var spent := store.ConsumeArtifactGrant(ticket.value.grant);
      var a := row.value.artifact;
      if a !in files { return Err(Unavailable); }
      if |files[a]| > row.value.maxBytes { return Err(TooLarge); }
      r := Ok((files[a], row.value.mime));
    }
  }

  /** The actions of one upload, in order. */
  function UploadActions(id: nat, ticket: Option<Claims>, device: string, workspace: string, mime: string, data: Bytes, now: real): seq<Action> {
    [BeginUpload(id, ticket, device, workspace, mime, data, now), Consume(id), OpenTemp(id), Replace(id), PutArtifact(id)]
  }

  function DownloadActions(id: nat, ticket: Option<Claims>, device: string, workspace: string, now: real): seq<Action> {
    [BeginDownload(id, ticket, device, workspace, now), Consume(id), CheckSize(id), ReadFile(id)]
  }

  lemma RunSteps(s: System, actions: seq<Action>, k: nat)
    requires k < |actions|
    ensures Run(s, actions[..k + 1]) == Step(Run(s, actions[..k]), actions[k])
  {
    hide Step;
    assert actions[..k + 1][..k] == actions[..k];
  }

  lemma RunEmpty(s: System, actions: seq<Action>)
    ensures Run(s, actions[..0]) == s && actions[..|actions|] == actions
  {
  }

  /** `s` with one transfer in it. */
  function With(s: System, id: nat, th: Thread): System { s.(threads := s.threads[id := th]) }

  lemma OpenTempAlone(s: System, id: nat, th: Thread, a: string)
    requires id !in s.threads && th.grant in s.grants && s.grants[th.grant].artifact == a && th.phase.UpConsumed?
    ensures Step(With(s, id, th), OpenTemp(id))
      == if a in s.temps then s.(temps := s.temps - {a})
         else With(s.(temps := s.temps[a := th.phase.data]), id, th.(phase := UpOpened(th.phase.data)))
  {
    hide IsNew, IssueGrant, Owns, Verified;
    assert s.threads[id := th] - {id} == s.threads;
  }

  lemma ReplaceAlone(s: System, id: nat, th: Thread, a: string)
    requires id !in s.threads && th.grant in s.grants && s.grants[th.grant].artifact == a && th.phase.UpOpened? && a !in s.temps
    ensures Step(With(s.(temps := s.temps[a := th.phase.data]), id, th), Replace(id))
      == With(s.(files := s.files[a := th.phase.data]), id, th.(phase := UpWritten(th.phase.data)))
  {
    hide IsNew, IssueGrant, Owns, Verified;
    assert s.temps[a := th.phase.data] - {a} == s.temps;
  }

  lemma PutAlone(s: System, id: nat, th: Thread, a: string)
    requires id !in s.threads && th.grant in s.grants && s.grants[th.grant].artifact == a && th.phase.UpWritten?
    ensures var g := s.grants[th.grant];
      Step(With(s, id, th), PutArtifact(id))
      == if a in s.artifacts then s
         else s.(artifacts := s.artifacts[a := Artifact(g.device, g.workspace, g.mime, |th.phase.data|)],
                 trace := s.trace + [Stored(th.grant, th.device, th.workspace, th.phase.data, th.at)])
  {
    hide IsNew, IssueGrant, Owns, Verified;
    assert s.threads[id := th] - {id} == s.threads;
  }

  /** A transfer that is gone takes no more steps. */
  lemma GoneIsIdle(s: System, id: nat)
    requires id !in s.threads
    ensures Step(s, Consume(id)) == s && Step(s, OpenTemp(id)) == s && Step(s, Replace(id)) == s
    ensures Step(s, PutArtifact(id)) == s && Step(s, CheckSize(id)) == s && Step(s, ReadFile(id)) == s
  {
    hide IsNew, IssueGrant, Owns, Verified, ThreadStep;
  }

  lemma ConsumeAlone(s: System, id: nat, th: Thread)
    requires id !in s.threads && th.grant in s.grants && !s.grants[th.grant].used
    requires th.phase.UpVerified? || th.phase == DownVerified
    ensures Step(With(s, id, th), Consume(id))
      == With(s.(grants := s.grants[th.grant := s.grants[th.grant].(used := true)]), id,
              th.(phase := if th.phase.UpVerified? then UpConsumed(th.phase.data) else DownConsumed))
  {
    hide IsNew, IssueGrant, Owns, Verified;
  }

  lemma UploadTail(s0: System, s: System, id: nat, actions: seq<Action>, th: Thread, a: string)
    requires |actions| == 5 && actions[2] == OpenTemp(id) && actions[3] == Replace(id) && actions[4] == PutArtifact(id)
    requires th.grant in s.grants && s.grants[th.grant].artifact == a && id !in s.threads && th.phase.UpConsumed?
    requires Run(s0, actions[..2]) == With(s, id, th)
    ensures var g, data := s.grants[th.grant], th.phase.data;
      Run(s0, actions)
      == if a in s.temps then s.(temps := s.temps - {a})
         else if a in s.artifacts then s.(files := s.files[a := data])
         else s.(files := s.files[a := data],
                 artifacts := s.artifacts[a := Artifact(g.device, g.workspace, g.mime, |data|)],
                 trace := s.trace + [Stored(th.grant, th.device, th.workspace, data, th.at)])
  {
    hide Run, Step;
    var data := th.phase.data;
    OpenTempAlone(s, id, th, a);
    if a in s.temps {
      GoneIsIdle(s.(temps := s.temps - {a}), id);
    } else {
      ReplaceAlone(s, id, th.(phase := UpOpened(data)), a);
      PutAlone(s.(files := s.files[a := data]), id, th.(phase := UpWritten(data)), a);
    }
    RunEmpty(s0, actions);
    RunSteps(s0, actions, 2);
    RunSteps(s0, actions, 3);
    RunSteps(s0, actions, 4);
  }

  lemma BeginUploadAlone(s: System, id: nat, ticket: Option<Claims>, device: string, workspace: string,
                         mime: string, data: Bytes, now: real)
    requires id !in s.threads
    ensures var begin := BeginUpload(id, ticket, device, workspace, mime, data, now);
      if Accepted(s, ticket, device, workspace, mime, data, now) then
        && ticket.Some? && ticket.value.grant in s.grants && !s.grants[ticket.value.grant].used
        && Step(s, begin) == With(s, id, Thread(ticket.value.grant, device, workspace, now, UpVerified(data)))
      else Step(s, begin) == s
  {
    hide IsNew, IssueGrant, Owns;
  }

  /** What UploadBytes does, on success and on every failure, is the protocol's upload, run without interruption. */
  lemma UploadFollowsProtocol(s: System, id: nat, ticket: Option<Claims>, device: string, workspace: string,
                              mime: string, data: Bytes, now: real)
    requires id !in s.threads
    ensures Run(s, UploadActions(id, ticket, device, workspace, mime, data, now))
      == if Accepted(s, ticket, device, workspace, mime, data, now)
         then Uploaded(s, ticket.value.grant, device, workspace, data, now) else s
  {
    hide Run, Step, Accepted;
    var actions := UploadActions(id, ticket, device, workspace, mime, data, now);
    BeginUploadAlone(s, id, ticket, device, workspace, mime, data, now);
    RunEmpty(s, actions);
    RunSteps(s, actions, 0);
    RunSteps(s, actions, 1);
    if Accepted(s, ticket, device, workspace, mime, data, now) {
      var g := ticket.value.grant;
      var th := Thread(g, device, workspace, now, UpVerified(data));
      ConsumeAlone(s, id, th);
      UploadTail(s, s.(grants := s.grants[g := s.grants[g].(used := true)]), id, actions,
                 th.(phase := UpConsumed(data)), s.grants[g].artifact);
    } else {
      GoneIsIdle(s, id);
      RunSteps(s, actions, 2);
      RunSteps(s, actions, 3);
      RunSteps(s, actions, 4);
    }
  }

  lemma CheckSizeAlone(s: System, id: nat, th: Thread, a: string)
    requires id !in s.threads && th.grant in s.grants && s.grants[th.grant].artifact == a && th.phase.DownConsumed?
    ensures Step(With(s, id, th), CheckSize(id))
      == if a in s.files && |s.files[a]| <= s.grants[th.grant].maxBytes then With(s, id, th.(phase := DownSized)) else s
  {
    hide IsNew, IssueGrant, Owns, Verified;
    assert s.threads[id := th] - {id} == s.threads;
  }

  lemma ReadFileAlone(s: System, id: nat, th: Thread, a: string)
    requires id !in s.threads && th.grant in s.grants && s.grants[th.grant].artifact == a && th.phase.DownSized?
    requires a in s.files && |s.files[a]| <= s.grants[th.grant].maxBytes
    ensures Step(With(s, id, th), ReadFile(id))
      == s.(trace := s.trace + [Fetched(th.grant, th.device, th.workspace, s.files[a], th.at)])
  {
    hide IsNew, IssueGrant, Owns, Verified;
    assert s.threads[id := th] - {id} == s.threads;
  }

  lemma DownloadTail(s0: System, s: System, id: nat, actions: seq<Action>, th: Thread, a: string)
    requires |actions| == 4 && actions[2] == CheckSize(id) && actions[3] == ReadFile(id)
    requires th.grant in s.grants && s.grants[th.grant].artifact == a && id !in s.threads && th.phase.DownConsumed?
    requires Run(s0, actions[..2]) == With(s, id, th)
    ensures Run(s0, actions)
      == s.(trace := s.trace + if a in s.files && |s.files[a]| <= s.grants[th.grant].maxBytes
                               then [Fetched(th.grant, th.device, th.workspace, s.files[a], th.at)] else [])
  {
    hide Run, Step;
    assert s.trace + [] == s.trace;
    RunEmpty(s0, actions);
    RunSteps(s0, actions, 2);
    RunSteps(s0, actions, 3);
    CheckSizeAlone(s, id, th, a);
    if a in s.files && |s.files[a]| <= s.grants[th.grant].maxBytes {
      ReadFileAlone(s, id, th.(phase := DownSized), a);
    } else {
      GoneIsIdle(s, id);
    }
  }

  lemma BeginDownloadAlone(s: System, id: nat, ticket: Option<Claims>, device: string, workspace: string, now: real)
    requires id !in s.threads
    ensures var begin := BeginDownload(id, ticket, device, workspace, now);
      if Verified(s, ticket, device, workspace, Download, now) then
        && ticket.Some? && ticket.value.grant in s.grants && !s.grants[ticket.value.grant].used
        && s.grants[ticket.value.grant].artifact == ticket.value.artifact
        && s.grants[ticket.value.grant].maxBytes == ticket.value.maxBytes
        && Step(s, begin) == With(s, id, Thread(ticket.value.grant, device, workspace, now, DownVerified))
      else Step(s, begin) == s
  {
    hide IsNew, IssueGrant, Owns;
  }

  /** What DownloadBytes does, on success and on every failure, is the protocol's download, run without interruption. */
  lemma DownloadFollowsProtocol(s: System, id: nat, ticket: Option<Claims>, device: string, workspace: string, now: real)
    requires id !in s.threads
    ensures Run(s, DownloadActions(id, ticket, device, workspace, now))
      == if !Verified(s, ticket, device, workspace, Download, now) then s
         else
           var g, a := ticket.value.grant, ticket.value.artifact;
           s.(grants := s.grants[g := s.grants[g].(used := true)],
              trace := s.trace + if a in s.files && |s.files[a]| <= ticket.value.maxBytes
                                 then [Fetched(g, device, workspace, s.files[a], now)] else [])
  {
    hide Run, Step, Verified;
    var actions := DownloadActions(id, ticket, device, workspace, now);
    BeginDownloadAlone(s, id, ticket, device, workspace, now);
    RunEmpty(s, actions);
    RunSteps(s, actions, 0);
    RunSteps(s, actions, 1);
    if Verified(s, ticket, device, workspace, Download, now) {
      var g := ticket.value.grant;
      var th := Thread(g, device, workspace, now, DownVerified);
      ConsumeAlone(s, id, th);
      DownloadTail(s, s.(grants := s.grants[g := s.grants[g].(used := true)]), id, actions,
                   th.(phase := DownConsumed), ticket.value.artifact);
    } else {
      GoneIsIdle(s, id);
      RunSteps(s, actions, 2);
      RunSteps(s, actions, 3);
    }
  }

  // --- from the upload grant to the downloaded bytes ---------------------------------------------------

  /** An upload grant for a new artifact, as the service issues it. */
  function IssueUpload(g: string, a: string, device: string, workspace: string, mime: string, maxBytes: int, ttl: real, now: real): Action {
    Issue(g, a, None, device, workspace, Upload, mime, maxBytes, ttl, now)
  }

  /**
   Any ticket presented for a grant that was just issued: it is accepted exactly if nothing in it was altered,
   its bearer and the operation are the ones it was issued for, and it has not expired.
   */
  lemma IssuedIsAcceptedIff(s: System, g: string, newId: string, given: Option<string>, device: string, workspace: string,
                            op: Operation, mime: string, maxBytes: int, ttl: real, now: real,
                            ticket: Claims, bearer: string, place: string, use: Operation, later: real)
    requires IsNew(s, g, newId) && ticket.grant == g
    ensures var s' := Step(s, Issue(g, newId, given, device, workspace, op, mime, maxBytes, ttl, now));
      Verified(s', Some(ticket), bearer, place, use, later) <==>
        && mime in MIME_TYPES && 0 < maxBytes <= MAX_BYTES && 0.0 < ttl <= TTL_SECONDS
        && ticket == Claims(g, if given in {None, Some("")} then newId else given.value, device, workspace, op, mime, maxBytes, now + ttl)
        && bearer == device && place == workspace && use == op && later < now + ttl
  {
  }

  lemma IssuesUpload(s: System, g: string, a: string, d: string, w: string, mime: string, maxBytes: int, ttl: real, now: real)
    requires IsNew(s, g, a) && Issuable(mime, maxBytes, ttl)
    ensures Step(s, IssueUpload(g, a, d, w, mime, maxBytes, ttl, now))
      == s.(grants := s.grants[g := Grant(a, d, w, Upload, mime, maxBytes, now + ttl, false)])
  {
  }

  lemma IssuesDownload(s: System, g: string, n: string, a: string, d: string, w: string, maxBytes: int, ttl: real, now: real)
    requires IsNew(s, g, n)
    ensures var issuable := Owns(s, a, d, w) && Issuable(s.artifacts[a].mime, Min(maxBytes, s.artifacts[a].size), ttl);
      Step(s, IssueDownload(g, n, a, d, w, maxBytes, ttl, now))
      == if issuable
         then s.(grants := s.grants[g := Grant(a, d, w, Download, s.artifacts[a].mime, Min(maxBytes, s.artifacts[a].size), now + ttl, false)])
         else s
  {
  }

  lemma RefusedTicket(s: System, ticket: Claims, d: string, w: string, op: Operation, now: real)
    requires ticket.grant !in s.grants
    ensures !Verified(s, Some(ticket), d, w, op, now)
  {
  }

  /** The state after a new artifact was uploaded under a fresh grant. */
  function Held(s: System, g: string, a: string, d: string, w: string, mime: string, maxBytes: int, expires: real, data: Bytes, now: real): System {
    s.(grants := s.grants[g := Grant(a, d, w, Upload, mime, maxBytes, expires, true)],
       files := s.files[a := data], artifacts := s.artifacts[a := Artifact(d, w, mime, |data|)],
       trace := s.trace + [Stored(g, d, w, data, now)])
  }

  lemma UploadHolds(s: System, i: nat, g: string, a: string, d: string, w: string, mime: string, maxBytes: int, ttl: real, t0: real,
                    data: Bytes, t1: real)
    requires IsNew(s, g, a) && a !in s.temps && i !in s.threads
    ensures var ticket := Some(Claims(g, a, d, w, Upload, mime, maxBytes, t0 + ttl));
      var s1 := Step(s, IssueUpload(g, a, d, w, mime, maxBytes, ttl, t0));
      var s2 := Run(s1, UploadActions(i, ticket, d, w, mime, data, t1));
      if Issuable(mime, maxBytes, ttl) && |data| <= maxBytes && t1 < t0 + ttl
      then s2 == Held(s, g, a, d, w, mime, maxBytes, t0 + ttl, data, t1)
      else s2 == s1
  {
    var claims := Claims(g, a, d, w, Upload, mime, maxBytes, t0 + ttl);
    var s1 := Step(s, IssueUpload(g, a, d, w, mime, maxBytes, ttl, t0));
    UploadFollowsProtocol(s1, i, Some(claims), d, w, mime, data, t1);
    IssuedIsAcceptedIff(s, g, a, None, d, w, Upload, mime, maxBytes, ttl, t0, claims, d, w, Upload, t1);
    if Issuable(mime, maxBytes, ttl) {
      IssuesUpload(s, g, a, d, w, mime, maxBytes, ttl, t0);
      hide Step, Run, Verified, IsNew;
    }
  }

  lemma DownloadFetches(s: System, j: nat, g: string, n: string, a: string, d: string, w: string, maxBytes: int, ttl: real, t2: real,
                        data: Bytes, t3: real)
    requires IsNew(s, g, n) && j !in s.threads && Owns(s, a, d, w) && s.files[a] == data && s.artifacts[a].size == |data|
    requires s.artifacts[a].mime in MIME_TYPES && |data| <= MAX_BYTES
    ensures var ticket := Some(Claims(g, a, d, w, Download, s.artifacts[a].mime, Min(maxBytes, |data|), t2 + ttl));
      var s3 := Step(s, IssueDownload(g, n, a, d, w, maxBytes, ttl, t2));
      Run(s3, DownloadActions(j, ticket, d, w, t3)).trace
      == s.trace + if data != [] && maxBytes >= |data| && 0.0 < ttl <= TTL_SECONDS && t3 < t2 + ttl
                   then [Fetched(g, d, w, data, t3)] else []
  {
    var claims := Claims(g, a, d, w, Download, s.artifacts[a].mime, Min(maxBytes, |data|), t2 + ttl);
    var s3 := Step(s, IssueDownload(g, n, a, d, w, maxBytes, ttl, t2));
    IssuesDownload(s, g, n, a, d, w, maxBytes, ttl, t2);
    DownloadFollowsProtocol(s3, j, Some(claims), d, w, t3);
    hide Step, Run;
    assert s.trace + [] == s.trace;
    if s3 == s { RefusedTicket(s, claims, d, w, Download, t3); }
  }

  /**
   From any state: a new artifact is uploaded under a fresh grant, a download grant is issued for it, and the
   download is made.  The bytes that come back are the bytes that went in exactly if both grants could be
   issued, both tickets were used in time, the data is not empty and fits both limits; otherwise the series does
   not record both transfers.
   */
  lemma UploadedIsDownloadedIff(s: System, i: nat, j: nat, g: string, h: string, a: string, n: string, d: string, w: string,
                                mime: string, data: Bytes, max1: int, ttl1: real, t0: real, t1: real,
                                max2: int, ttl2: real, t2: real, t3: real)
    requires IsNew(s, g, a) && a !in s.temps && i !in s.threads && j !in s.threads
    requires IsNew(s, h, n) && g != h && a != n
    ensures var upload := Some(Claims(g, a, d, w, Upload, mime, max1, t0 + ttl1));
      var download := Some(Claims(h, a, d, w, Download, mime, Min(max2, |data|), t2 + ttl2));
      var s2 := Run(Step(s, IssueUpload(g, a, d, w, mime, max1, ttl1, t0)), UploadActions(i, upload, d, w, mime, data, t1));
      var s4 := Run(Step(s2, IssueDownload(h, n, a, d, w, max2, ttl2, t2)), DownloadActions(j, download, d, w, t3));
      s4.trace == s.trace + [Stored(g, d, w, data, t1), Fetched(h, d, w, data, t3)] <==>
        && mime in MIME_TYPES && 0 < max1 <= MAX_BYTES && 0.0 < ttl1 <= TTL_SECONDS && t1 < t0 + ttl1
        && 0 < |data| <= max1 && |data| <= max2 && 0.0 < ttl2 <= TTL_SECONDS && t3 < t2 + ttl2
  {
    hide Run, Step, Verified;
    UploadHolds(s, i, g, a, d, w, mime, max1, ttl1, t0, data, t1);
    var s1 := Step(s, IssueUpload(g, a, d, w, mime, max1, ttl1, t0));
    var s2 := Run(s1, UploadActions(i, Some(Claims(g, a, d, w, Upload, mime, max1, t0 + ttl1)), d, w, mime, data, t1));
    if s2 == Held(s, g, a, d, w, mime, max1, t0 + ttl1, data, t1) && Issuable(mime, max1, ttl1) && |data| <= max1 && t1 < t0 + ttl1 {
      HeldIsNew(s, g, a, d, w, mime, max1, t0 + ttl1, data, t1, h, n);
      DownloadFetches(s2, j, h, n, a, d, w, max2, ttl2, t2, data, t3);
      assert s.trace + [Stored(g, d, w, data, t1)] + [Fetched(h, d, w, data, t3)]
          == s.trace + [Stored(g, d, w, data, t1), Fetched(h, d, w, data, t3)];
    } else {
      NothingFetched(s, s1, h, n, a, g, d, w, mime, max1, ttl1, t0, data, max2, ttl2, t2, j, t3);
    }
  }

  lemma HeldIsNew(s: System, g: string, a: string, d: string, w: string, mime: string, maxBytes: int, expires: real, data: Bytes,
                  now: real, h: string, n: string)
    requires IsNew(s, h, n) && g != h && a != n
    ensures IsNew(Held(s, g, a, d, w, mime, maxBytes, expires, data, now), h, n)
    ensures Owns(Held(s, g, a, d, w, mime, maxBytes, expires, data, now), a, d, w)
  {
  }

  /** Without the upload there is no row to issue a download for. */
  lemma NothingFetched(s: System, s1: System, h: string, n: string, a: string, g: string, d: string, w: string, mime: string,
                       max1: int, ttl1: real, t0: real, data: Bytes, max2: int, ttl2: real, t2: real, j: nat, t3: real)
    requires IsNew(s, g, a) && j !in s.threads && h !in s.grants && g != h
    requires s1 == Step(s, IssueUpload(g, a, d, w, mime, max1, ttl1, t0))
    ensures var download := Some(Claims(h, a, d, w, Download, mime, Min(max2, |data|), t2 + ttl2));
      Run(Step(s1, IssueDownload(h, n, a, d, w, max2, ttl2, t2)), DownloadActions(j, download, d, w, t3)).trace == s.trace
  {
    var claims := Claims(h, a, d, w, Download, mime, Min(max2, |data|), t2 + ttl2);
    assert s1 == s.(grants := s1.grants) && h !in s1.grants;
    assert Step(s1, IssueDownload(h, n, a, d, w, max2, ttl2, t2)) == s1;
    DownloadFollowsProtocol(s1, j, Some(claims), d, w, t3);
    hide Step, Run;
    RefusedTicket(s1, claims, d, w, Download, t3);
  }
}
