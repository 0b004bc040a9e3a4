/** What the service does to the outside world, in order: every call to the
    scan provider, the deployment platform and object storage, and every
    statement sent to the store, each with whether it succeeded. The store's
    state is the replay of the accepted statements. */
module Effects {
  import opened Util
  import Akkeris
  import Db

  /** The settings both the provisioner and the reconciler read. */
  datatype Config = Config(akkerisApi: string, callbackUrl: string, timeoutMinutes: int)

  /** Where a release status lives on the platform, and the token to reach it. */
  datatype Target = Target(token: string, app: string, releaseId: string, statusId: string)

  /** The scan provider's operations the service calls. */
  datatype ProviderCall =
    | GetDomains
    | CreateScanProfile(domainToken: string, name: string, endpoint: string)
    | StartScan(token: string)
    | GetScanStatus(token: string)
    | GetFullScanReport(token: string)
    | DeleteScanProfile(token: string)

  datatype Event =
    | Provider(call: ProviderCall, ok: bool)
    | Platform(request: Akkeris.Request, ok: bool)
    | Upload(key: string, body: string, token: string, ok: bool)
    | Write(stmt: Db.Stmt, ok: bool)

  function Step(t: Db.Tables, e: Event): Db.Tables {
    if e.Write? && e.ok then Db.Apply(t, e.stmt) else t
  }

  /** The tables after the accepted statements of `es`, in order. */
  function Replay(t: Db.Tables, es: seq<Event>): Db.Tables
    decreases |es|
  {
    if es == [] then t else Step(Replay(t, es[..|es| - 1]), es[|es| - 1])
  }

  lemma {:induction false} ReplayConcat(t: Db.Tables, a: seq<Event>, b: seq<Event>)
    ensures Replay(t, a + b) == Replay(Replay(t, a), b)
    decreases |b|
  {
    if b == [] {
      assert a + b == a;
    } else {
      ReplayConcat(t, a, b[..|b| - 1]);
      assert (a + b)[..|a + b| - 1] == a + b[..|b| - 1];
    }
  }

  /** Replaying a trace event by event from its front. */
  lemma ReplayCons(t: Db.Tables, e: Event, rest: seq<Event>)
    ensures Replay(t, [e] + rest) == Replay(Step(t, e), rest)
  {
    ReplayConcat(t, [e], rest);
    assert [e][..0] == [];
  }

  /** Events that leave the store as it was. */
  lemma {:induction false} ReplayWithoutWrites(t: Db.Tables, es: seq<Event>)
    requires forall i :: 0 <= i < |es| ==> !(es[i].Write? && es[i].ok)
    ensures Replay(t, es) == t
    decreases |es|
  {
    if es != [] {
      ReplayWithoutWrites(t, es[..|es| - 1]);
    }
  }

  /** Regrouping a trace; used where one step's events are appended in
      several parts. */
  lemma AppendAssoc(x: seq<Event>, y: seq<Event>, z: seq<Event>)
    ensures (x + y) + z == x + (y + z)
  {
  }

  predicate IsProfileSoftDelete(e: Event) {
    e.Write? && e.stmt.DeleteScanProfile?
  }

  predicate IsReleaseSoftDelete(e: Event) {
    e.Write? && e.stmt.DeleteRelease?
  }

  /** The deletion protocol: a profile row is soft-deleted only right after
      the provider accepted the deletion of a profile, and release rows only
      right after a profile row was soft-deleted. */
  predicate DeletionOrdered(es: seq<Event>) {
    && (forall i :: 0 <= i < |es| && IsProfileSoftDelete(es[i]) ==>
          i > 0 && es[i - 1].Provider? && es[i - 1].call.DeleteScanProfile? && es[i - 1].ok)
    && (forall i :: 0 <= i < |es| && IsReleaseSoftDelete(es[i]) ==>
          i > 0 && IsProfileSoftDelete(es[i - 1]) && es[i - 1].ok)
  }

  lemma DeletionOrderedConcat(a: seq<Event>, b: seq<Event>)
    requires DeletionOrdered(a) && DeletionOrdered(b)
    ensures DeletionOrdered(a + b)
  {
    var es := a + b;
    forall i | 0 <= i < |es| && (IsProfileSoftDelete(es[i]) || IsReleaseSoftDelete(es[i]))
      ensures i > 0 && es[i - 1] == if i <= |a| then a[i - 1] else b[i - |a| - 1]
    {
      if i >= |a| {
        assert es[i] == b[i - |a|];
      }
    }
  }

  /** Statuses written to the scan_profiles table, in order, accepted or not. */
  function StatusWrites(es: seq<Event>): seq<string> {
    if es == [] then []
    else (if es[0].Write? && es[0].stmt.UpdateScanProfileStatus? then [es[0].stmt.status] else [])
         + StatusWrites(es[1..])
  }

  /** Number of error rows the events try to store. */
  function ErrorRecords(es: seq<Event>): nat {
    if es == [] then 0
    else (if es[0].Write? && es[0].stmt.StoreError? then 1 else 0) + ErrorRecords(es[1..])
  }

  predicate Polls(es: seq<Event>) {
    exists e :: e in es && e.Provider? && e.call.GetScanStatus?
  }

  predicate AttemptsDeletion(es: seq<Event>) {
    exists e :: e in es && e.Provider? && e.call.DeleteScanProfile?
  }

  lemma {:induction false} ObserversConcat(a: seq<Event>, b: seq<Event>)
    ensures StatusWrites(a + b) == StatusWrites(a) + StatusWrites(b)
    ensures ErrorRecords(a + b) == ErrorRecords(a) + ErrorRecords(b)
  {
    if a != [] {
      ObserversConcat(a[1..], b);
      assert (a + b)[1..] == a[1..] + b;
    } else {
      assert a + b == b;
    }
  }

  /** A single event's contribution to the observers. */
  lemma SingleEvent(e: Event)
    ensures StatusWrites([e]) == if e.Write? && e.stmt.UpdateScanProfileStatus? then [e.stmt.status] else []
    ensures ErrorRecords([e]) == if e.Write? && e.stmt.StoreError? then 1 else 0
  {
    assert [e][1..] == [];
  }

  lemma FlagsConcat(a: seq<Event>, b: seq<Event>)
    ensures Polls(a + b) <==> Polls(a) || Polls(b)
    ensures AttemptsDeletion(a + b) <==> AttemptsDeletion(a) || AttemptsDeletion(b)
  {
    if Polls(a + b) {
      var e :| e in a + b && e.Provider? && e.call.GetScanStatus?;
      assert e in a || e in b;
    }
    if AttemptsDeletion(a + b) {
      var e :| e in a + b && e.Provider? && e.call.DeleteScanProfile?;
      assert e in a || e in b;
    }
    if Polls(a) || Polls(b) {
      var e :| (e in a || e in b) && e.Provider? && e.call.GetScanStatus?;
      assert e in a + b;
    }
    if AttemptsDeletion(a) || AttemptsDeletion(b) {
      var e :| (e in a || e in b) && e.Provider? && e.call.DeleteScanProfile?;
      assert e in a + b;
    }
  }

  lemma {:induction false} NoStatusWrite(es: seq<Event>)
    requires StatusWrites(es) == []
    ensures forall i :: 0 <= i < |es| && es[i].Write? ==> !es[i].stmt.UpdateScanProfileStatus?
  {
    if es != [] {
      NoStatusWrite(es[1..]);
      forall i | 1 <= i < |es|
        ensures es[i] == es[1..][i - 1]
      {
      }
    }
  }

  /** Events without an accepted status write or profile insert keep every
      profile row's status. */
  lemma {:induction false} StatusKept(t: Db.Tables, es: seq<Event>)
    requires forall i :: 0 <= i < |es| && es[i].Write? && es[i].ok ==>
               !es[i].stmt.UpdateScanProfileStatus? && !es[i].stmt.StoreScanProfile?
    ensures |Replay(t, es).profiles| == |t.profiles|
    ensures forall i :: 0 <= i < |t.profiles| ==> Replay(t, es).profiles[i].status == t.profiles[i].status
    decreases |es|
  {
    if es != [] {
      StatusKept(t, es[..|es| - 1]);
    }
  }

  /** Records an error and, only when that worked, turns the release status
      into an error pointing at it. */
  function ErrorReportSteps(cfg: Config, target: Target, errorId: string, description: string,
                            errorType: string, scanProfileId: string, at: int,
                            stored: bool, posted: bool): (es: seq<Event>)
    ensures |es| > 0 && es[0] == Write(Db.StoreError(errorId, description, target.releaseId, scanProfileId, at), stored)
    ensures |es| == (if stored then 2 else 1)
    ensures stored ==> es[1] == Platform(ErrorStatusRequest(cfg, target, errorId, errorType), posted)
  {
    [Write(Db.StoreError(errorId, description, target.releaseId, scanProfileId, at), stored)]
    + (if stored then [Platform(ErrorStatusRequest(cfg, target, errorId, errorType), posted)] else [])
  }

  function ErrorStatusRequest(cfg: Config, target: Target, errorId: string, errorType: string): Akkeris.Request {
    Akkeris.UpdateReleaseStatusWithError(cfg.akkerisApi, cfg.callbackUrl, target.token, target.app,
                                         target.releaseId, target.statusId, errorId, errorType)
  }

  /** The handle shared by the provisioner and the reconciler: the store and
      the record of everything done so far. */
  class Context {
    const db: Db.Store
    var trace: seq<Event>
    ghost const origin: Db.Tables

    ghost predicate Valid()
      reads this, db
    {
      db.Snapshot() == Replay(origin, trace)
    }

    constructor (db: Db.Store)
      ensures this.db == db && trace == [] && origin == db.Snapshot()
      ensures Valid()
    {
      this.db := db;
      trace := [];
      origin := db.Snapshot();
    }

    /** An external call: the store is untouched. */
    method Record(e: Event)
      requires Valid() && !e.Write?
      modifies this
      ensures Valid() && trace == old(trace) + [e]
    {
      trace := trace + [e];
      assert trace[..|trace| - 1] == old(trace);
    }

    /** A statement sent to the store; `ok` says whether the database
        accepted it. A rejected statement changes nothing. */
    method Execute(s: Db.Stmt, ok: bool)
      requires Valid()
      modifies this, db
      ensures Valid() && trace == old(trace) + [Write(s, ok)]
    {
      if ok {
        match s
        case StoreRelease(releaseId, appName, statusId, token, at) =>
          db.StoreRelease(releaseId, appName, statusId, token, at);
        case StoreScanProfile(id, releaseId, name, endpoint, status, token, at) =>
          db.StoreScanProfile(id, releaseId, name, endpoint, status, token, at);
        case UpdateScanProfileStatus(id, status, at) =>
          db.UpdateScanProfileStatus(id, status, at);
        case UpdateScanProfileReport(id, filename, at) =>
          db.UpdateScanProfileReport(id, filename, at);
        case DeleteScanProfile(id, at) =>
          db.DeleteScanProfile(id, at);
        case DeleteRelease(releaseId, at) =>
          db.DeleteRelease(releaseId, at);
        case StoreError(errorId, description, releaseId, scanProfileId, at) =>
          db.StoreError(errorId, description, releaseId, scanProfileId, at);
      }
      trace := trace + [Write(s, ok)];
      assert trace[..|trace| - 1] == old(trace);
    }
  }
}
