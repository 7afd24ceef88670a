// Cloud profile saves: any number of browsers, one revision-checked row per
// owner, and a network that can lose or delay anything.
module ProfileSync {
  import opened Options

  type Owner = nat
  type Edit = nat

  /** A plan as the protocol sees it: whose it is, and which edits it includes. */
  datatype Content = Content(owner: Owner, edits: set<Edit>)

  /** A save as it goes over the wire, under the owner's own credentials. */
  datatype Request = Request(browser: nat, serial: nat, owner: Owner, expected: Option<nat>, payload: Content)

  datatype Reply = Accepted(revision: nat) | Conflict

  datatype Response = Response(request: Request, reply: Reply)

  /** A bootstrap between its first line and its last. */
  datatype Bootstrap = Bootstrap(browser: nat, generation: nat, owner: Option<Owner>, cloudRequested: bool)

  /** What a bootstrap read from the server: the row's revision and content, or no row. */
  datatype RowRead = RowRead(bootstrap: Bootstrap, owner: Owner, revision: Option<nat>, content: Content)

  /** A save in flight and the bootstrap generation it started in. */
  datatype Saving = Saving(request: Request, generation: nat)

  /**
   * One browser's store. `known` records the revisions it has loaded or written;
   * nothing it does reads it.
   */
  datatype Browser = Browser(
    authUser: Option<Owner>,
    cloudAccountReady: bool,
    cloudAvailable: bool,
    cloudSyncEnabled: bool,
    profileRevision: Option<nat>,
    plan: Content,
    profileDirty: bool,
    saving: Option<Saving>,
    conflictDetected: bool,
    bootstrapGeneration: nat,
    serial: nat,
    known: set<(Owner, nat)>)
  {
    predicate InCloudMode() {
      authUser.Some? && cloudAccountReady && cloudAvailable && cloudSyncEnabled
    }
  }

  /** Every owner's accepted saves, oldest first; the revision is how many there are. */
  type Logs = map<Owner, seq<Content>>

  datatype System = System(
    browsers: seq<Browser>,
    logs: Logs,
    requests: set<Request>,
    responses: set<Response>,
    bootstraps: set<Bootstrap>,
    rowsRead: set<RowRead>)

  datatype Event =
    | BeginBootstrap(browser: nat, authUser: Option<Owner>, ready: bool)
    | SetCloudSync(browser: nat, enabled: bool, persisted: bool)
    | ServerRead(bootstrap: Bootstrap)
    | FinishCloud(read: RowRead, outdated: bool)
    | FinishLocal(bootstrap: Bootstrap, content: Content)
    | EditPlan(browser: nat, edit: Edit)
    | Flush(browser: nat)
    | ServerSave(request: Request)
    | SaveResolved(browser: nat, revision: nat)
    | SaveConflicted(browser: nat)
    | SaveFailed(browser: nat)

  // ---- Specification: the server -----------------------------------------------

  function LogOf(logs: Logs, owner: Owner): seq<Content> {
    if owner in logs then logs[owner] else []
  }

  /** Insert when no row is expected, compare-and-increment when one is. */
  function Saved(logs: Logs, owner: Owner, payload: Content, expected: Option<nat>): (Logs, Reply) {
    var log := LogOf(logs, owner);
    var accepted := match expected
      case None => |log| == 0
      case Some(revision) => |log| > 0 && |log| == revision;
    if accepted then (logs[owner := log + [payload]], Accepted(|log| + 1)) else (logs, Conflict)
  }

  // ---- Specification: one browser ----------------------------------------------

  function Begun(b: Browser, authUser: Option<Owner>, ready: bool): Browser {
    b.(bootstrapGeneration := b.bootstrapGeneration + 1, profileDirty := false, conflictDetected := false,
       authUser := authUser, cloudAccountReady := ready, cloudAvailable := false)
  }

  function BootstrapOf(b: Browser, id: nat): Bootstrap {
    Bootstrap(id, b.bootstrapGeneration, b.authUser, b.authUser.Some? && b.cloudAccountReady && b.cloudSyncEnabled)
  }

  function LoadedFromCloud(b: Browser, read: RowRead, outdated: bool): Browser {
    if read.bootstrap.generation != b.bootstrapGeneration then b
    else
      b.(plan := read.content, cloudAvailable := true, profileRevision := read.revision,
         profileDirty := b.profileDirty || (outdated && read.revision.Some?),
         known := if read.revision.Some? then b.known + {(read.owner, read.revision.value)} else b.known)
  }

  function LoadedLocally(b: Browser, bootstrap: Bootstrap, content: Content): Browser {
    if bootstrap.generation != b.bootstrapGeneration then b
    else b.(plan := content, cloudAvailable := false, profileRevision := None)
  }

  function Edited(b: Browser, edit: Edit): Browser {
    b.(plan := b.plan.(edits := b.plan.edits + {edit}), profileDirty := true)
  }

  predicate CanFlush(b: Browser) {
    b.profileDirty && b.saving.None? && !b.conflictDetected && b.InCloudMode()
  }

  function RequestOf(b: Browser, id: nat): Request
    requires CanFlush(b)
  {
    Request(id, b.serial, b.authUser.value, b.profileRevision, b.plan)
  }

  function Flushed(b: Browser, id: nat): Browser
    requires CanFlush(b)
  {
    b.(saving := Some(Saving(RequestOf(b, id), b.bootstrapGeneration)), profileDirty := false, serial := b.serial + 1)
  }

  /** The save's generation and account are still the browser's own. */
  predicate StillOurs(b: Browser) {
    b.saving.Some? && b.saving.value.generation == b.bootstrapGeneration
    && b.authUser == Some(b.saving.value.request.owner)
  }

  function SaveAccepted(b: Browser, revision: nat): Browser {
    if b.saving.None? then b
    else if !StillOurs(b) then b.(saving := None)
    else b.(saving := None, profileRevision := Some(revision),
            known := b.known + {(b.saving.value.request.owner, revision)})
  }

  function SaveRefused(b: Browser): Browser {
    if b.saving.None? then b
    else if !StillOurs(b) then b.(saving := None)
    else b.(saving := None, conflictDetected := true)
  }

  function SaveLost(b: Browser): Browser {
    if b.saving.None? then b
    else if !StillOurs(b) then b.(saving := None)
    else b.(saving := None, profileDirty := true)
  }

  // ---- Specification: the system -------------------------------------------------

  function Restarted(s: System, id: nat, b: Browser, authUser: Option<Owner>, ready: bool): System
    requires id < |s.browsers|
  {
    var begun := Begun(b, authUser, ready);
    s.(browsers := s.browsers[id := begun], bootstraps := s.bootstraps + {BootstrapOf(begun, id)})
  }

  function SyncSet(s: System, id: nat, enabled: bool, persisted: bool): System
    requires id < |s.browsers|
  {
    var b := s.browsers[id];
    if b.cloudSyncEnabled == enabled then s
    else if !enabled && !persisted then s.(browsers := s.browsers[id := b.(cloudSyncEnabled := false)])
    else Restarted(s, id, b.(cloudSyncEnabled := enabled), b.authUser, b.cloudAccountReady)
  }

  function ReadRow(s: System, bootstrap: Bootstrap): System
    requires bootstrap.owner.Some?
  {
    var owner := bootstrap.owner.value;
    var log := LogOf(s.logs, owner);
    var read := if |log| == 0 then RowRead(bootstrap, owner, None, Content(owner, {}))
                else RowRead(bootstrap, owner, Some(|log|), log[|log| - 1]);
    s.(rowsRead := s.rowsRead + {read})
  }

  function Step(s: System, e: Event): System {
    match e
    case BeginBootstrap(id, authUser, ready) =>
      if id < |s.browsers| then Restarted(s, id, s.browsers[id], authUser, ready) else s
    case SetCloudSync(id, enabled, persisted) =>
      if id < |s.browsers| then SyncSet(s, id, enabled, persisted) else s
    case ServerRead(bootstrap) =>
      if bootstrap in s.bootstraps && bootstrap.cloudRequested && bootstrap.owner.Some? then ReadRow(s, bootstrap) else s
    case FinishCloud(read, outdated) =>
      if read in s.rowsRead && read.bootstrap in s.bootstraps && read.bootstrap.browser < |s.browsers|
      then s.(browsers := s.browsers[read.bootstrap.browser := LoadedFromCloud(s.browsers[read.bootstrap.browser], read, outdated)],
              bootstraps := s.bootstraps - {read.bootstrap})
      else s
    case FinishLocal(bootstrap, content) =>
      if bootstrap in s.bootstraps && bootstrap.browser < |s.browsers|
      then s.(browsers := s.browsers[bootstrap.browser := LoadedLocally(s.browsers[bootstrap.browser], bootstrap, content)],
              bootstraps := s.bootstraps - {bootstrap})
      else s
    case EditPlan(id, edit) =>
      if id < |s.browsers| then s.(browsers := s.browsers[id := Edited(s.browsers[id], edit)]) else s
    case Flush(id) =>
      if id < |s.browsers| && CanFlush(s.browsers[id])
      then s.(browsers := s.browsers[id := Flushed(s.browsers[id], id)],
              requests := s.requests + {RequestOf(s.browsers[id], id)})
      else s
    case ServerSave(request) =>
      if request in s.requests then
        var saved := Saved(s.logs, request.owner, request.payload, request.expected);
        s.(logs := saved.0, responses := s.responses + {Response(request, saved.1)})
      else s
    case SaveResolved(id, revision) =>
      if id < |s.browsers| && s.browsers[id].saving.Some?
         && Response(s.browsers[id].saving.value.request, Accepted(revision)) in s.responses
      then s.(browsers := s.browsers[id := SaveAccepted(s.browsers[id], revision)]) else s
    case SaveConflicted(id) =>
      if id < |s.browsers| && s.browsers[id].saving.Some?
         && Response(s.browsers[id].saving.value.request, Conflict) in s.responses
      then s.(browsers := s.browsers[id := SaveRefused(s.browsers[id])]) else s
    case SaveFailed(id) =>
      if id < |s.browsers| then s.(browsers := s.browsers[id := SaveLost(s.browsers[id])]) else s
  }

  function After(s: System, events: seq<Event>): System
    decreases |events|
  {
    if |events| == 0 then s else Step(After(s, events[..|events| - 1]), events[|events| - 1])
  }

  // ---- Invariants ------------------------------------------------------------------

  /** Revision `r` of an owner's row exists and held exactly `c`. */
  predicate Held(logs: Logs, owner: Owner, r: nat, c: Content) {
    1 <= r <= |LogOf(logs, owner)| && LogOf(logs, owner)[r - 1] == c
  }

  /** Revision `r` exists and everything in it is in `c`; no revision asks nothing. */
  predicate BuiltOn(logs: Logs, owner: Owner, revision: Option<nat>, c: Content) {
    revision.Some? ==>
      1 <= revision.value <= |LogOf(logs, owner)| && LogOf(logs, owner)[revision.value - 1].edits <= c.edits
  }

  /** An owner's row only ever holds that owner's plans, each including the one it replaced. */
  ghost predicate LogsSound(logs: Logs) {
    forall owner ::
      && (forall i | 0 <= i < |LogOf(logs, owner)| :: LogOf(logs, owner)[i].owner == owner)
      && (forall i | 0 <= i < |LogOf(logs, owner)| - 1 :: LogOf(logs, owner)[i].edits <= LogOf(logs, owner)[i + 1].edits)
  }

  /** A request carries its own owner's plan, built on the revision it expects to replace. */
  predicate RequestSound(logs: Logs, r: Request) {
    r.payload.owner == r.owner && BuiltOn(logs, r.owner, r.expected, r.payload)
  }

  predicate ResponseSound(logs: Logs, r: Response) {
    r.reply.Accepted? ==> Held(logs, r.request.owner, r.reply.revision, r.request.payload)
  }

  predicate RowReadSound(logs: Logs, r: RowRead) {
    && r.bootstrap.owner == Some(r.owner) && r.content.owner == r.owner
    && (match r.revision
        case Some(revision) => Held(logs, r.owner, revision, r.content)
        case None => r.content.edits == {})
  }

  /** What a browser that may save knows: its plan is its user's, built on the revision it names. */
  predicate BrowserSound(logs: Logs, b: Browser) {
    && (b.cloudAvailable ==>
          && b.authUser.Some? && b.plan.owner == b.authUser.value
          && BuiltOn(logs, b.authUser.value, b.profileRevision, b.plan)
          && (b.profileRevision.Some? ==> (b.authUser.value, b.profileRevision.value) in b.known))
    && (b.saving.Some? ==>
          RequestSound(logs, b.saving.value.request) && b.saving.value.generation <= b.bootstrapGeneration)
    && (StillOurs(b) && b.cloudAvailable ==>
          b.saving.value.request.payload.edits <= b.plan.edits && b.profileRevision == b.saving.value.request.expected)
  }

  /** The edits a browser believes are stored: those of the revision it names. */
  function StoredEdits(logs: Logs, b: Browser): set<Edit> {
    if b.authUser.Some? && b.profileRevision.Some? && 1 <= b.profileRevision.value <= |LogOf(logs, b.authUser.value)|
    then LogOf(logs, b.authUser.value)[b.profileRevision.value - 1].edits else {}
  }

  function EditsInFlight(b: Browser): set<Edit> {
    if StillOurs(b) then b.saving.value.request.payload.edits else {}
  }

  /** No edit of a cloud plan is forgotten: it is stored, on its way, marked, or stopped by a conflict. */
  predicate EditsAccounted(logs: Logs, b: Browser) {
    b.cloudAvailable && !b.profileDirty && !b.conflictDetected ==>
      b.plan.edits <= StoredEdits(logs, b) + EditsInFlight(b)
  }

  /** A request's expected revision was one its browser had loaded or written. */
  predicate Informed(s: System, r: Request) {
    && r.browser < |s.browsers|
    && (r.expected.Some? ==> (r.owner, r.expected.value) in s.browsers[r.browser].known)
  }

  ghost predicate Invariant(s: System) {
    && LogsSound(s.logs)
    && (forall r | r in s.requests :: RequestSound(s.logs, r) && Informed(s, r))
    && (forall r | r in s.responses :: ResponseSound(s.logs, r))
    && (forall r | r in s.rowsRead :: RowReadSound(s.logs, r))
    && (forall i | 0 <= i < |s.browsers| :: BrowserSound(s.logs, s.browsers[i]) && EditsAccounted(s.logs, s.browsers[i]))
    && (forall k | k in s.bootstraps :: k.browser < |s.browsers| && BootstrapSound(s.browsers[k.browser], k))
    && OnePerGeneration(s.bootstraps)
  }

  /** A bootstrap still current is its user's own, and nothing is saved until it finishes. */
  predicate BootstrapSound(b: Browser, k: Bootstrap) {
    && k.generation <= b.bootstrapGeneration
    && (k.generation == b.bootstrapGeneration ==>
          k.owner == b.authUser && !b.cloudAvailable
          && (b.saving.Some? ==> b.saving.value.generation < b.bootstrapGeneration))
  }

  ghost predicate OnePerGeneration(bootstraps: set<Bootstrap>) {
    forall a, b | a in bootstraps && b in bootstraps && a.browser == b.browser && a.generation == b.generation :: a == b
  }

  /** Rows only ever gain revisions. */
  ghost predicate Extends(a: Logs, b: Logs) {
    forall owner :: LogOf(a, owner) <= LogOf(b, owner)
  }

  // ---- Every step keeps them ---------------------------------------------------------

  /** Nothing learned about a revision is ever undone by a later one. */
  lemma OldRevisionsStand(a: Logs, b: Logs)
    requires Extends(a, b)
    ensures forall r | RequestSound(a, r) :: RequestSound(b, r)
    ensures forall r | ResponseSound(a, r) :: ResponseSound(b, r)
    ensures forall r | RowReadSound(a, r) :: RowReadSound(b, r)
  {
    forall r | RequestSound(a, r)
      ensures RequestSound(b, r)
    {
      assert LogOf(a, r.owner) <= LogOf(b, r.owner);
    }
    forall r | ResponseSound(a, r)
      ensures ResponseSound(b, r)
    {
      assert LogOf(a, r.request.owner) <= LogOf(b, r.request.owner);
    }
    forall r | RowReadSound(a, r)
      ensures RowReadSound(b, r)
    {
      assert LogOf(a, r.owner) <= LogOf(b, r.owner);
    }
  }

  lemma BrowserStands(a: Logs, b: Logs, w: Browser)
    requires Extends(a, b) && BrowserSound(a, w) && EditsAccounted(a, w)
    ensures BrowserSound(b, w) && EditsAccounted(b, w)
  {
    if w.authUser.Some? {
      assert LogOf(a, w.authUser.value) <= LogOf(b, w.authUser.value);
    }
    if w.saving.Some? {
      assert LogOf(a, w.saving.value.request.owner) <= LogOf(b, w.saving.value.request.owner);
    }
  }

  /** An accepted save appends a plan that includes everything it replaces. */
  lemma SaveKeepsLogs(logs: Logs, r: Request)
    requires LogsSound(logs) && RequestSound(logs, r)
    ensures var saved := Saved(logs, r.owner, r.payload, r.expected);
            LogsSound(saved.0) && Extends(logs, saved.0) && ResponseSound(saved.0, Response(r, saved.1))
  {
    var saved := Saved(logs, r.owner, r.payload, r.expected);
    forall owner
      ensures LogOf(logs, owner) <= LogOf(saved.0, owner)
      ensures forall i | 0 <= i < |LogOf(saved.0, owner)| :: LogOf(saved.0, owner)[i].owner == owner
      ensures forall i | 0 <= i < |LogOf(saved.0, owner)| - 1 ::
                LogOf(saved.0, owner)[i].edits <= LogOf(saved.0, owner)[i + 1].edits
    {
    }
  }

  lemma ServerSaveKeeps(s: System, r: Request)
    requires Invariant(s)
    ensures Invariant(Step(s, ServerSave(r)))
  {
    if r in s.requests {
      hide Saved;
      hide LogsSound;
      var saved := Saved(s.logs, r.owner, r.payload, r.expected);
      SaveKeepsLogs(s.logs, r);
      OldRevisionsStand(s.logs, saved.0);
      forall i | 0 <= i < |s.browsers|
        ensures BrowserSound(saved.0, s.browsers[i]) && EditsAccounted(saved.0, s.browsers[i])
      {
        BrowserStands(s.logs, saved.0, s.browsers[i]);
      }
      hide BrowserSound;
      hide EditsAccounted;
      hide RequestSound;
      hide ResponseSound;
      hide RowReadSound;
    }
  }

  /** One browser changes: the rest of the system only needs it to stay sound and keep its history. */
  lemma BrowserChanges(s: System, id: nat, b: Browser, bootstraps: set<Bootstrap>)
    requires Invariant(s) && id < |s.browsers| && bootstraps <= s.bootstraps
    requires BrowserSound(s.logs, b) && EditsAccounted(s.logs, b)
    requires s.browsers[id].known <= b.known
    requires forall k | k in bootstraps && k.browser == id :: BootstrapSound(b, k)
    ensures Invariant(s.(browsers := s.browsers[id := b], bootstraps := bootstraps))
  {
    hide BrowserSound;
    hide EditsAccounted;
    hide LogsSound;
    hide RequestSound;
    hide ResponseSound;
    hide RowReadSound;
    hide BootstrapSound;
  }

  lemma RestartKeeps(s: System, id: nat, b: Browser, authUser: Option<Owner>, ready: bool)
    requires Invariant(s) && id < |s.browsers|
    requires b == s.browsers[id].(cloudSyncEnabled := b.cloudSyncEnabled)
    ensures Invariant(Restarted(s, id, b, authUser, ready))
  {
    var begun := Begun(b, authUser, ready);
    assert BrowserSound(s.logs, s.browsers[id]);
    assert BrowserSound(s.logs, begun) && EditsAccounted(s.logs, begun);
    forall k | k in s.bootstraps && k.browser == id
      ensures BootstrapSound(begun, k) && k.generation < begun.bootstrapGeneration
    {
      assert BootstrapSound(s.browsers[id], k);
    }
    BrowserChanges(s, id, begun, s.bootstraps);
    assert BootstrapSound(begun, BootstrapOf(begun, id));
    hide BrowserSound;
    hide EditsAccounted;
    hide LogsSound;
    hide RequestSound;
    hide ResponseSound;
    hide RowReadSound;
    hide BootstrapSound;
    hide Begun;
  }

  lemma SyncKeeps(s: System, id: nat, enabled: bool, persisted: bool)
    requires Invariant(s) && id < |s.browsers|
    ensures Invariant(SyncSet(s, id, enabled, persisted))
  {
    var b := s.browsers[id];
    if b.cloudSyncEnabled != enabled {
      if !enabled && !persisted {
        var off := b.(cloudSyncEnabled := false);
        assert BrowserSound(s.logs, b) && EditsAccounted(s.logs, b);
        forall k | k in s.bootstraps && k.browser == id
          ensures BootstrapSound(off, k)
        {
          assert BootstrapSound(b, k);
        }
        BrowserChanges(s, id, off, s.bootstraps);
      } else {
        RestartKeeps(s, id, b.(cloudSyncEnabled := enabled), b.authUser, b.cloudAccountReady);
      }
    }
  }

  /** What the server returns is the row as it stands. */
  lemma ReadKeeps(s: System, k: Bootstrap)
    requires Invariant(s) && k.owner.Some?
    ensures Invariant(ReadRow(s, k))
  {
    var owner := k.owner.value;
    var log := LogOf(s.logs, owner);
    assert |log| > 0 ==> log[|log| - 1].owner == owner;
    hide BrowserSound;
    hide EditsAccounted;
    hide LogsSound;
    hide RequestSound;
    hide ResponseSound;
  }

  lemma CloudFinishKeeps(s: System, read: RowRead, outdated: bool)
    requires Invariant(s) && read in s.rowsRead && read.bootstrap in s.bootstraps
    ensures Invariant(Step(s, FinishCloud(read, outdated)))
  {
    var k := read.bootstrap;
    var b := s.browsers[k.browser];
    var loaded := LoadedFromCloud(b, read, outdated);
    assert BrowserSound(s.logs, b) && EditsAccounted(s.logs, b) && RowReadSound(s.logs, read) && BootstrapSound(b, k);
    assert BrowserSound(s.logs, loaded) && EditsAccounted(s.logs, loaded);
    forall other | other in s.bootstraps - {k} && other.browser == k.browser
      ensures BootstrapSound(loaded, other)
    {
      assert BootstrapSound(b, other);
    }
    BrowserChanges(s, k.browser, loaded, s.bootstraps - {k});
  }

  lemma LocalFinishKeeps(s: System, k: Bootstrap, content: Content)
    requires Invariant(s) && k in s.bootstraps
    ensures Invariant(Step(s, FinishLocal(k, content)))
  {
    var b := s.browsers[k.browser];
    var loaded := LoadedLocally(b, k, content);
    assert BrowserSound(s.logs, b) && EditsAccounted(s.logs, b) && BootstrapSound(b, k);
    assert BrowserSound(s.logs, loaded) && EditsAccounted(s.logs, loaded);
    forall other | other in s.bootstraps - {k} && other.browser == k.browser
      ensures BootstrapSound(loaded, other)
    {
      assert BootstrapSound(b, other);
    }
    BrowserChanges(s, k.browser, loaded, s.bootstraps - {k});
  }

  /** An edit, or a completed save, leaves every bootstrap as it was. */
  lemma SameGeneration(s: System, id: nat, b: Browser)
    requires Invariant(s) && id < |s.browsers|
    requires BrowserSound(s.logs, b) && EditsAccounted(s.logs, b) && s.browsers[id].known <= b.known
    requires b.bootstrapGeneration == s.browsers[id].bootstrapGeneration && b.authUser == s.browsers[id].authUser
    requires b.cloudAvailable == s.browsers[id].cloudAvailable && (b.saving == s.browsers[id].saving || b.saving.None?)
    ensures Invariant(s.(browsers := s.browsers[id := b]))
  {
    forall k | k in s.bootstraps && k.browser == id
      ensures BootstrapSound(b, k)
    {
      assert BootstrapSound(s.browsers[id], k);
    }
    BrowserChanges(s, id, b, s.bootstraps);
  }

  lemma EditKeeps(s: System, id: nat, edit: Edit)
    requires Invariant(s) && id < |s.browsers|
    ensures Invariant(Step(s, EditPlan(id, edit)))
  {
    assert BrowserSound(s.logs, s.browsers[id]);
    SameGeneration(s, id, Edited(s.browsers[id], edit));
  }

  lemma SaveEndsKeeps(s: System, id: nat)
    requires Invariant(s) && id < |s.browsers|
    ensures Invariant(s.(browsers := s.browsers[id := SaveLost(s.browsers[id])]))
    ensures Invariant(s.(browsers := s.browsers[id := SaveRefused(s.browsers[id])]))
  {
    var b := s.browsers[id];
    assert BrowserSound(s.logs, b) && EditsAccounted(s.logs, b);
    SameGeneration(s, id, SaveLost(b));
    SameGeneration(s, id, SaveRefused(b));
    hide Invariant;
  }

  lemma SaveOutcomeKeeps(s: System, id: nat, revision: nat)
    requires Invariant(s) && id < |s.browsers|
    ensures Invariant(Step(s, SaveResolved(id, revision)))
    ensures Invariant(Step(s, SaveConflicted(id)))
    ensures Invariant(Step(s, SaveFailed(id)))
  {
    var b := s.browsers[id];
    if b.saving.Some? && Response(b.saving.value.request, Accepted(revision)) in s.responses {
      assert BrowserSound(s.logs, b) && EditsAccounted(s.logs, b);
      assert ResponseSound(s.logs, Response(b.saving.value.request, Accepted(revision)));
      AcceptedSound(s.logs, b, revision);
      SameGeneration(s, id, SaveAccepted(b, revision));
    }
    SaveEndsKeeps(s, id);
    hide Invariant;
    hide SaveAccepted;
    hide SaveRefused;
    hide SaveLost;
  }

  /** The revision a save was given holds exactly what was sent. */
  lemma AcceptedSound(logs: Logs, b: Browser, revision: nat)
    requires b.saving.Some? && BrowserSound(logs, b) && EditsAccounted(logs, b)
    requires ResponseSound(logs, Response(b.saving.value.request, Accepted(revision)))
    ensures BrowserSound(logs, SaveAccepted(b, revision)) && EditsAccounted(logs, SaveAccepted(b, revision))
  {
  }

  lemma FlushKeeps(s: System, id: nat)
    requires Invariant(s) && id < |s.browsers| && CanFlush(s.browsers[id])
    ensures Invariant(Step(s, Flush(id)))
  {
    var b := s.browsers[id];
    var flushed, request := Flushed(b, id), RequestOf(b, id);
    assert BrowserSound(s.logs, b);
    assert RequestSound(s.logs, request);
    assert BrowserSound(s.logs, flushed) && EditsAccounted(s.logs, flushed);
    forall k | k in s.bootstraps && k.browser == id
      ensures BootstrapSound(flushed, k)
    {
      assert BootstrapSound(b, k);
    }
    BrowserChanges(s, id, flushed, s.bootstraps);
    var after := s.(browsers := s.browsers[id := flushed]);
    RequestJoins(after, request);
  }

  lemma RequestJoins(s: System, r: Request)
    requires Invariant(s) && RequestSound(s.logs, r) && Informed(s, r)
    ensures Invariant(s.(requests := s.requests + {r}))
  {
    hide BrowserSound;
    hide EditsAccounted;
    hide LogsSound;
    hide ResponseSound;
    hide RowReadSound;
    hide BootstrapSound;
  }

  lemma StepKeeps(s: System, e: Event)
    requires Invariant(s)
    ensures Invariant(Step(s, e))
  {
    BootstrapsAreBrowsers(s);
    hide Invariant;
    match e
    case BeginBootstrap(id, authUser, ready) =>
      if id < |s.browsers| { RestartKeeps(s, id, s.browsers[id], authUser, ready); }
    case SetCloudSync(id, enabled, persisted) =>
      if id < |s.browsers| { SyncKeeps(s, id, enabled, persisted); }
    case ServerRead(k) =>
      if k.owner.Some? { ReadKeeps(s, k); }
    case FinishCloud(read, outdated) =>
      if read in s.rowsRead && read.bootstrap in s.bootstraps { CloudFinishKeeps(s, read, outdated); }
    case FinishLocal(k, content) =>
      if k in s.bootstraps { LocalFinishKeeps(s, k, content); }
    case EditPlan(id, edit) =>
      if id < |s.browsers| { EditKeeps(s, id, edit); }
    case Flush(id) =>
      if id < |s.browsers| && CanFlush(s.browsers[id]) { FlushKeeps(s, id); }
    case ServerSave(r) => ServerSaveKeeps(s, r);
    case SaveResolved(id, revision) =>
      if id < |s.browsers| { SaveOutcomeKeeps(s, id, revision); }
    case SaveConflicted(id) =>
      if id < |s.browsers| { SaveOutcomeKeeps(s, id, 0); }
    case SaveFailed(id) =>
      if id < |s.browsers| { SaveOutcomeKeeps(s, id, 0); }
  }

  lemma BootstrapsAreBrowsers(s: System)
    requires Invariant(s)
    ensures forall k | k in s.bootstraps :: k.browser < |s.browsers|
  {
  }

  // ---- What every run keeps ------------------------------------------------------------

  /** A browser before anything has happened: signed out, local, nothing marked. */
  predicate Fresh(b: Browser) {
    b.authUser.None? && !b.cloudAvailable && b.saving.None? && b.known == {}
  }

  predicate Initial(s: System) {
    && (forall i | 0 <= i < |s.browsers| :: Fresh(s.browsers[i]))
    && s.logs == map[] && s.requests == {} && s.responses == {} && s.bootstraps == {} && s.rowsRead == {}
  }

  lemma {:induction false} RunKeeps(s: System, events: seq<Event>)
    requires Initial(s)
    ensures Invariant(After(s, events))
    decreases |events|
  {
    if |events| > 0 {
      hide Step;
      hide Invariant;
      RunKeeps(s, events[..|events| - 1]);
      StepKeeps(After(s, events[..|events| - 1]), events[|events| - 1]);
    }
  }

  /**
   * Whatever the interleaving, the losses and the account switches, when the
   * server accepts a save it replaces nothing, or exactly the latest revision,
   * which the saving browser had itself loaded or written, with a plan of the
   * same owner that includes everything it replaces.
   */
  lemma AcceptedSaveWasInformed(start: System, events: seq<Event>, r: Request)
    requires Initial(start) && r in After(start, events).requests
    ensures var s := After(start, events);
            var saved := Saved(s.logs, r.owner, r.payload, r.expected);
            var log := LogOf(s.logs, r.owner);
            && r.payload.owner == r.owner
            && (saved.1.Accepted? ==>
                  && LogOf(saved.0, r.owner) == log + [r.payload]
                  && (|log| > 0 ==>
                        && r.expected == Some(|log|)
                        && r.browser < |s.browsers| && (r.owner, |log|) in s.browsers[r.browser].known
                        && log[|log| - 1].edits <= r.payload.edits))
  {
    RunKeeps(start, events);
    var s := After(start, events);
    assert RequestSound(s.logs, r) && Informed(s, r);
  }

  /** Revisions are only added, and the newest holds every edit the newest held before. */
  predicate Grows(before: seq<Content>, after: seq<Content>) {
    && before <= after
    && (|before| > 0 ==> before[|before| - 1].edits <= after[|after| - 1].edits)
  }

  /** Over any continuation a stored row only grows: no accepted edit is ever lost from it. */
  lemma {:induction false} NoStoredEditIsLost(start: System, events: seq<Event>, later: seq<Event>, owner: Owner)
    requires Initial(start)
    ensures Grows(LogOf(After(start, events).logs, owner), LogOf(After(start, events + later).logs, owner))
    decreases |later|
  {
    hide After;
    hide Step;
    hide Invariant;
    hide LogOf;
    if |later| == 0 {
      assert events + later == events;
      GrowsNot(LogOf(After(start, events).logs, owner));
    } else {
      var n := |later| - 1;
      var mid := After(start, events + later[..n]);
      NoStoredEditIsLost(start, events, later[..n], owner);
      RunKeeps(start, events + later[..n]);
      AfterSplits(start, events, later);
      StepExtends(mid, later[n], owner);
      hide Grows;
      GrowthAddsUp(LogOf(After(start, events).logs, owner), LogOf(mid.logs, owner), LogOf(Step(mid, later[n]).logs, owner));
    }
  }

  lemma GrowsNot(log: seq<Content>)
    ensures Grows(log, log)
  {
  }

  lemma GrowthAddsUp(a: seq<Content>, b: seq<Content>, c: seq<Content>)
    requires Grows(a, b) && Grows(b, c)
    ensures Grows(a, c)
  {
  }

  lemma AfterSplits(start: System, events: seq<Event>, later: seq<Event>)
    requires |later| > 0
    ensures After(start, events + later) == Step(After(start, events + later[..|later| - 1]), later[|later| - 1])
  {
    hide Step;
    var all := events + later;
    assert all[..|all| - 1] == events + later[..|later| - 1];
  }

  lemma StepExtends(s: System, e: Event, owner: Owner)
    requires Invariant(s)
    ensures Grows(LogOf(s.logs, owner), LogOf(Step(s, e).logs, owner))
  {
    if e.ServerSave? && e.request in s.requests {
      assert RequestSound(s.logs, e.request);
    }
  }

  /**
   * An edit is never forgotten: in a browser whose cloud plan is loaded, every
   * edit is in the revision it names, in its save in flight, or still marked for
   * saving, unless a conflict has stopped its saves.
   */
  lemma NoEditIsForgotten(start: System, events: seq<Event>, id: nat)
    requires Initial(start) && id < |After(start, events).browsers|
    ensures var s := After(start, events);
            var b := s.browsers[id];
            b.cloudAvailable ==>
              b.profileDirty || b.conflictDetected || b.plan.edits <= StoredEdits(s.logs, b) + EditsInFlight(b)
  {
    RunKeeps(start, events);
    assert EditsAccounted(After(start, events).logs, After(start, events).browsers[id]);
  }

  /** Events that really do reload a browser's plan, or send it: a refused flush or an unchanged setting does neither. */
  predicate ReloadsOrSends(s: System, e: Event, id: nat) {
    && id < |s.browsers|
    && (|| (e.BeginBootstrap? && e.browser == id)
        || (e.SetCloudSync? && e.browser == id && s.browsers[id].cloudSyncEnabled != e.enabled && (e.enabled || e.persisted))
        || (e.Flush? && e.browser == id && CanFlush(s.browsers[id])))
  }

  /** Along a run the browser never reloads its plan or sends it. */
  predicate Undisturbed(s: System, events: seq<Event>, id: nat) {
    forall i | 0 <= i < |events| :: !ReloadsOrSends(After(s, events[..i]), events[i], id)
  }

  lemma UndisturbedBefore(s: System, events: seq<Event>, id: nat, n: nat)
    requires n <= |events| && Undisturbed(s, events, id)
    ensures Undisturbed(s, events[..n], id)
  {
    hide After;
    hide ReloadsOrSends;
    forall i | 0 <= i < n
      ensures !ReloadsOrSends(After(s, events[..n][..i]), events[..n][i], id)
    {
      assert events[..n][..i] == events[..i];
      assert !ReloadsOrSends(After(s, events[..i]), events[i], id);
    }
  }

  /** A bootstrap of this browser that comes to its end, and may load another plan. */
  predicate FinishesBootstrap(e: Event, id: nat) {
    || (e.FinishCloud? && e.read.bootstrap.browser == id)
    || (e.FinishLocal? && e.bootstrap.browser == id)
  }

  /**
   * An edit, made while a save is in flight or not, stays marked through every
   * way that save can end, and through anything anyone else does, until the
   * browser sends it or bootstraps again; and it stays in the plan unless a
   * bootstrap already under way finishes and loads another one.
   */
  lemma {:induction false} EditStaysMarked(s: System, edit: Edit, later: seq<Event>, id: nat)
    requires id < |s.browsers| && Undisturbed(Step(s, EditPlan(id, edit)), later, id)
    ensures var after := After(Step(s, EditPlan(id, edit)), later);
            && id < |after.browsers| && after.browsers[id].profileDirty
            && ((forall e | e in later :: !FinishesBootstrap(e, id)) ==> edit in after.browsers[id].plan.edits)
    decreases |later|
  {
    if |later| > 0 {
      var n := |later| - 1;
      UndisturbedBefore(Step(s, EditPlan(id, edit)), later, id, n);
      EditStaysMarked(s, edit, later[..n], id);
      StaysMarked(After(Step(s, EditPlan(id, edit)), later[..n]), later[n], id);
      hide Step;
      hide ReloadsOrSends;
    }
  }

  lemma StaysMarked(s: System, e: Event, id: nat)
    requires id < |s.browsers| && s.browsers[id].profileDirty && !ReloadsOrSends(s, e, id)
    ensures id < |Step(s, e).browsers| && Step(s, e).browsers[id].profileDirty
    ensures !FinishesBootstrap(e, id) ==> s.browsers[id].plan.edits <= Step(s, e).browsers[id].plan.edits
  {
  }

  // ---- Saves that nothing stops arrive ---------------------------------------------------

  /** What a browser must name to replace an owner's row: its revision, or none where there is no row. */
  function CurrentRevision(logs: Logs, owner: Owner): Option<nat> {
    if |LogOf(logs, owner)| == 0 then None else Some(|LogOf(logs, owner)|)
  }

  /**
   * A save is accepted exactly when it names the row as it stands: it becomes the
   * row, one revision up, and whoever saves next against the old one is refused.
   * Nobody else's row moves, and a refused save moves nothing.
   */
  lemma SavedExactlyWhenCurrent(logs: Logs, owner: Owner, payload: Content, expected: Option<nat>, other: Owner, next: Content)
    ensures var saved := Saved(logs, owner, payload, expected);
            if expected == CurrentRevision(logs, owner) then
              && saved.1 == Accepted(|LogOf(logs, owner)| + 1)
              && LogOf(saved.0, owner) == LogOf(logs, owner) + [payload]
              && CurrentRevision(saved.0, owner) == Some(|LogOf(logs, owner)| + 1)
              && (other != owner ==> LogOf(saved.0, other) == LogOf(logs, other))
              && Saved(saved.0, owner, next, expected).1 == Conflict
            else saved.1 == Conflict && saved.0 == logs
  {
  }

  /** Where a browser stands once its save is stored: clean, idle and naming the new revision. */
  predicate Delivered(before: System, after: System, id: nat, plan: Content) {
    && id < |before.browsers| && id < |after.browsers| && before.browsers[id].authUser.Some?
    && var owner, b := before.browsers[id].authUser.value, after.browsers[id];
       && LogOf(after.logs, owner) == LogOf(before.logs, owner) + [plan]
       && b.plan == plan && !b.profileDirty && b.saving.None? && !b.conflictDetected
       && b.profileRevision == CurrentRevision(after.logs, owner)
  }

  /** A flush, the server's save and its answer. */
  function Exchanged(s: System, id: nat, reply: Event): System
    requires id < |s.browsers| && CanFlush(s.browsers[id])
  {
    Step(Step(Step(s, Flush(id)), ServerSave(RequestOf(s.browsers[id], id))), reply)
  }

  /**
   * An exchange against the row as it stands stores the plan; against any other
   * revision it stores nothing, keeps the edits and detects the conflict.
   */
  lemma FlushDelivers(s: System, id: nat)
    requires id < |s.browsers| && CanFlush(s.browsers[id])
    ensures var b := s.browsers[id];
            var owner := b.authUser.value;
            if b.profileRevision == CurrentRevision(s.logs, owner) then
              Delivered(s, Exchanged(s, id, SaveResolved(id, |LogOf(s.logs, owner)| + 1)), id, b.plan)
            else
              var after := Exchanged(s, id, SaveConflicted(id));
              && after.logs == s.logs && after.browsers[id].conflictDetected && after.browsers[id].plan == b.plan
              && after.browsers[id].profileRevision == b.profileRevision && after.browsers[id].saving.None?
  {
    SavedExactlyWhenCurrent(s.logs, s.browsers[id].authUser.value, s.browsers[id].plan, s.browsers[id].profileRevision,
                            0, s.browsers[id].plan);
    hide Saved;
    hide LogOf;
  }

  /** A browser that has detected a conflict sends nothing more, whatever happens, until it bootstraps again. */
  lemma {:induction false} ConflictStopsSaves(s: System, later: seq<Event>, id: nat)
    requires id < |s.browsers| && s.browsers[id].conflictDetected
    requires forall e | e in later :: !(e.BeginBootstrap? && e.browser == id) && !(e.SetCloudSync? && e.browser == id)
    ensures id < |After(s, later).browsers| && After(s, later).browsers[id].conflictDetected
    ensures forall e | e == Flush(id) :: Step(After(s, later), e) == After(s, later)
    decreases |later|
  {
    if |later| > 0 {
      var n := |later| - 1;
      ConflictStopsSaves(s, later[..n], id);
      StaysConflicted(After(s, later[..n]), later[n], id);
    }
  }

  lemma StaysConflicted(s: System, e: Event, id: nat)
    requires id < |s.browsers| && s.browsers[id].conflictDetected
    requires !(e.BeginBootstrap? && e.browser == id) && !(e.SetCloudSync? && e.browser == id)
    ensures id < |Step(s, e).browsers| && Step(s, e).browsers[id].conflictDetected
  {
  }

  /** A bootstrap, the server's read of the row, and its end. */
  function Bootstrapped(s: System, id: nat, owner: Owner, outdated: bool): System
    requires id < |s.browsers|
  {
    var begun := Step(s, BeginBootstrap(id, Some(owner), true));
    var k := BootstrapOf(begun.browsers[id], id);
    var row := LogOf(s.logs, owner);
    var read := if |row| == 0 then RowRead(k, owner, None, Content(owner, {}))
                else RowRead(k, owner, Some(|row|), row[|row| - 1]);
    Step(Step(begun, ServerRead(k)), FinishCloud(read, outdated))
  }

  /**
   * A signed-in browser with cloud saves on that bootstraps undisturbed holds the
   * row, names its revision and may save; a row in an outdated form is marked for
   * saving at once.
   */
  lemma BootstrapLoadsTheRow(s: System, id: nat, owner: Owner, outdated: bool)
    requires id < |s.browsers| && s.browsers[id].cloudSyncEnabled
    ensures var after := Bootstrapped(s, id, owner, outdated);
            && after.logs == s.logs && id < |after.browsers|
            && var b := after.browsers[id];
               var row := LogOf(s.logs, owner);
               && b.plan == (if |row| == 0 then Content(owner, {}) else row[|row| - 1])
               && b.profileRevision == CurrentRevision(s.logs, owner)
               && b.authUser == Some(owner) && b.InCloudMode() && !b.conflictDetected
               && b.profileDirty == (outdated && |row| > 0)
               && b.saving == s.browsers[id].saving
  {
    hide LogOf;
  }

  /**
   * From any state: a browser that signs in, loads its owner's row, edits it and
   * flushes, with nobody saving in between, stores the row it loaded with the
   * edit added.
   */
  lemma BootstrapEditFlushStores(s: System, id: nat, owner: Owner, outdated: bool, edit: Edit)
    requires id < |s.browsers| && s.browsers[id].cloudSyncEnabled && s.browsers[id].saving.None?
    ensures var edited := Step(Bootstrapped(s, id, owner, outdated), EditPlan(id, edit));
            var row := LogOf(s.logs, owner);
            && id < |edited.browsers| && CanFlush(edited.browsers[id])
            && var after := Exchanged(edited, id, SaveResolved(id, |row| + 1));
               && |LogOf(after.logs, owner)| == |row| + 1
               && LogOf(after.logs, owner)[|row|].edits == (if |row| == 0 then {} else row[|row| - 1].edits) + {edit}
               && Delivered(edited, after, id, edited.browsers[id].plan)
  {
    BootstrapLoadsTheRow(s, id, owner, outdated);
    hide Bootstrapped;
    var edited := Step(Bootstrapped(s, id, owner, outdated), EditPlan(id, edit));
    FlushDelivers(edited, id);
    hide Exchanged;
    hide LogOf;
  }

  // ---- The server and the store as the source updates them -----------------------------

  /** The profile table: one row per owner, replaced in place under a revision check. */
  class ProfileTable {
    var rows: Logs

    constructor ()
      ensures rows == map[]
    {
      rows := map[];
    }

    method SaveUserProfile(owner: Owner, payload: Content, expectedRevision: Option<nat>) returns (reply: Reply)
      modifies this
      ensures (rows, reply) == Saved(old(rows), owner, payload, expectedRevision)
    {
      var log := LogOf(rows, owner);
      if expectedRevision.None? {
        if owner in rows && |log| > 0 {
          return Conflict;
        }
      } else if |log| == 0 || |log| != expectedRevision.value {
        return Conflict;
      }
      rows := rows[owner := log + [payload]];
      reply := Accepted(|log| + 1);
    }
  }

  /** A browser's module-level flags and the store fields beside them. */
  class ProfileStore {
    const id: nat
    var authUser: Option<Owner>
    var cloudAccountReady: bool
    var cloudAvailable: bool
    var cloudSyncEnabled: bool
    var profileRevision: Option<nat>
    var plan: Content
    var profileDirty: bool
    var saving: Option<Saving>
    var conflictDetected: bool
    var bootstrapGeneration: nat
    var serial: nat
    ghost var known: set<(Owner, nat)>

    ghost function View(): Browser
      reads this
    {
      Browser(authUser, cloudAccountReady, cloudAvailable, cloudSyncEnabled, profileRevision, plan, profileDirty,
              saving, conflictDetected, bootstrapGeneration, serial, known)
    }

    constructor (id: nat, plan: Content, cloudSyncEnabled: bool)
      ensures Fresh(View()) && this.id == id && this.plan == plan
    {
      this.id, this.plan, this.cloudSyncEnabled := id, plan, cloudSyncEnabled;
      authUser, cloudAccountReady, cloudAvailable, profileRevision := None, false, false, None;
      profileDirty, saving, conflictDetected, bootstrapGeneration, serial := false, None, false, 0, 0;
      known := {};
    }

    /** Bootstrap up to its first await. */
    method BeginBootstrap(authUser: Option<Owner>, ready: bool) returns (bootstrap: Bootstrap)
      modifies this
      ensures View() == Begun(old(View()), authUser, ready) && bootstrap == BootstrapOf(View(), id)
    {
      bootstrapGeneration := bootstrapGeneration + 1;
      profileDirty := false;
      conflictDetected := false;
      this.authUser := authUser;
      cloudAccountReady := ready;
      cloudAvailable := false;
      bootstrap := Bootstrap(id, bootstrapGeneration, authUser, authUser.Some? && ready && cloudSyncEnabled);
    }

    /** Bootstrap after its awaits, when both cloud reads came back usable. */
    method FinishFromCloud(read: RowRead, outdated: bool)
      modifies this
      ensures View() == LoadedFromCloud(old(View()), read, outdated)
    {
      if read.bootstrap.generation != bootstrapGeneration {
        return;
      }
      plan := read.content;
      cloudAvailable := true;
      profileRevision := read.revision;
      if outdated && read.revision.Some? {
        profileDirty := true;
      }
      known := if read.revision.Some? then known + {(read.owner, read.revision.value)} else known;
    }

    /** Bootstrap after its awaits, on browser data. */
    method FinishFromLocal(bootstrap: Bootstrap, content: Content)
      modifies this
      ensures View() == LoadedLocally(old(View()), bootstrap, content)
    {
      if bootstrap.generation != bootstrapGeneration {
        return;
      }
      plan := content;
      cloudAvailable := false;
      profileRevision := None;
    }

    method UpdatePlan(edit: Edit)
      modifies this
      ensures View() == Edited(old(View()), edit)
    {
      plan := plan.(edits := plan.edits + {edit});
      profileDirty := true;
    }

    /** A flush up to its await: nothing, or one request and the flags that go with it. */
    method BeginFlush() returns (request: Option<Request>)
      modifies this
      ensures request.Some? <==> CanFlush(old(View()))
      ensures request.Some? ==> request.value == RequestOf(old(View()), id) && View() == Flushed(old(View()), id)
      ensures request.None? ==> View() == old(View())
    {
      if !profileDirty || saving.Some? || conflictDetected
         || !(authUser.Some? && cloudAccountReady && cloudAvailable && cloudSyncEnabled) {
        return None;
      }
      var sent := Request(id, serial, authUser.value, profileRevision, plan);
      saving := Some(Saving(sent, bootstrapGeneration));
      profileDirty := false;
      serial := serial + 1;
      request := Some(sent);
    }

    /** A flush after its await: a revision, a conflict, or a transient failure. */
    method EndFlush(reply: Option<Reply>)
      modifies this
      ensures View() == match reply
                        case None => SaveLost(old(View()))
                        case Some(Accepted(revision)) => SaveAccepted(old(View()), revision)
                        case Some(Conflict) => SaveRefused(old(View()))
    {
      if saving.None? {
        return;
      }
      var save := saving.value;
      saving := None;
      if save.generation != bootstrapGeneration || authUser != Some(save.request.owner) {
        return;
      }
      match reply
      case Some(Accepted(revision)) =>
        profileRevision := Some(revision);
        known := known + {(save.request.owner, revision)};
      case Some(Conflict) => conflictDetected := true;
      case None => profileDirty := true;
    }
  }
}
