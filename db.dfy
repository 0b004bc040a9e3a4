/** The relational store: the releases, scan_profiles and errors tables, the
    statements the service runs against them, and the queries that read them.
    A table is the sequence of its rows in insertion order; an UPDATE changes
    every row its WHERE clause selects. */
module Db {
  import opened Util

  // ---------------------------------------------------------------------
  // Statement parameters

  /** A JavaScript value handed to a statement as a parameter. */
  datatype Arg = Undefined | Null | Defined(text: string)

  /** The parameter normalisation every statement goes through: an undefined
      parameter is sent as NULL, every other one as it is, position by
      position. */
  function NormalizeArgs(args: seq<Arg>): (out: seq<Arg>)
    ensures |out| == |args|
    ensures forall i :: 0 <= i < |args| && args[i].Undefined? ==> out[i] == Null
    ensures forall i :: 0 <= i < |args| && !args[i].Undefined? ==> out[i] == args[i]
  {
    if args == [] then []
    else [if args[0].Undefined? then Null else args[0]] + NormalizeArgs(args[1..])
  }

  /** Normalised parameters hold no undefined value, so normalising twice is
      normalising once. */
  lemma {:induction false} NormalizeArgsIdempotent(args: seq<Arg>)
    ensures forall i :: 0 <= i < |args| ==> !NormalizeArgs(args)[i].Undefined?
    ensures NormalizeArgs(NormalizeArgs(args)) == NormalizeArgs(args)
  {
    if args != [] {
      NormalizeArgsIdempotent(args[1..]);
      assert NormalizeArgs(args)[1..] == NormalizeArgs(args[1..]);
    }
  }

  // ---------------------------------------------------------------------
  // Rows

  datatype ReleaseRow = ReleaseRow(
    release: string,
    appName: string,
    statusId: string,
    token: string,
    deleted: bool,
    createdAt: int,
    updatedAt: int)

  datatype ProfileRow = ProfileRow(
    id: string,
    release: string,
    name: string,
    endpoint: string,
    status: string,
    token: string,
    reportFilename: Option<string>,
    deleted: bool,
    createdAt: int,
    updatedAt: int)

  datatype ErrorRow = ErrorRow(
    id: string,
    description: string,
    release: string,
    scanProfile: Option<string>,
    createdAt: int)

  datatype Tables = Tables(profiles: seq<ProfileRow>, releases: seq<ReleaseRow>, errors: seq<ErrorRow>)

  /** A scan profile joined with one release row of the same release id. */
  datatype Joined = Joined(profile: ProfileRow, release: ReleaseRow)

  function NewRelease(releaseId: string, appName: string, statusId: string, token: string, at: int): ReleaseRow {
    ReleaseRow(releaseId, appName, statusId, token, false, at, at)
  }

  function NewProfile(id: string, releaseId: string, name: string, endpoint: string,
                      status: string, token: string, at: int): ProfileRow {
    ProfileRow(id, releaseId, name, endpoint, status, token, None, false, at, at)
  }

  /** The error row storeError inserts: the scan_profile column is written
      only when a non-empty profile reference is given. */
  function NewError(errorId: string, description: string, releaseId: string,
                    scanProfileId: string, at: int): (e: ErrorRow)
    ensures e.id == errorId && e.description == description && e.release == releaseId
    ensures e.scanProfile.Some? <==> scanProfileId != ""
    ensures e.scanProfile.Some? ==> e.scanProfile.value == scanProfileId
  {
    ErrorRow(errorId, description, releaseId, if scanProfileId != "" then Some(scanProfileId) else None, at)
  }

  // ---------------------------------------------------------------------
  // Updates

  /** `update scan_profiles set scan_status = status, updated_at = now() where scan_profile = id` */
  function SetStatus(rows: seq<ProfileRow>, id: string, status: string, at: int): (r: seq<ProfileRow>)
    ensures |r| == |rows|
    ensures forall i :: 0 <= i < |rows| && rows[i].id != id ==> r[i] == rows[i]
    ensures forall i :: 0 <= i < |rows| && rows[i].id == id ==> r[i] == rows[i].(status := status, updatedAt := at)
  {
    seq(|rows|, i requires 0 <= i < |rows| =>
      if rows[i].id == id then rows[i].(status := status, updatedAt := at) else rows[i])
  }

  /** `update scan_profiles set report_filename = filename, updated_at = now() where scan_profile = id` */
  function SetReport(rows: seq<ProfileRow>, id: string, filename: string, at: int): (r: seq<ProfileRow>)
    ensures |r| == |rows|
    ensures forall i :: 0 <= i < |rows| && rows[i].id != id ==> r[i] == rows[i]
    ensures forall i :: 0 <= i < |rows| && rows[i].id == id ==>
              r[i] == rows[i].(reportFilename := Some(filename), updatedAt := at)
  {
    seq(|rows|, i requires 0 <= i < |rows| =>
      if rows[i].id == id then rows[i].(reportFilename := Some(filename), updatedAt := at) else rows[i])
  }

  /** `update scan_profiles set deleted = true, updated_at = now() where scan_profile = id` */
  function MarkProfileDeleted(rows: seq<ProfileRow>, id: string, at: int): (r: seq<ProfileRow>)
    ensures |r| == |rows|
    ensures forall i :: 0 <= i < |rows| && rows[i].id != id ==> r[i] == rows[i]
    ensures forall i :: 0 <= i < |rows| && rows[i].id == id ==> r[i] == rows[i].(deleted := true, updatedAt := at)
  {
    seq(|rows|, i requires 0 <= i < |rows| =>
      if rows[i].id == id then rows[i].(deleted := true, updatedAt := at) else rows[i])
  }

  /** `update releases set deleted = true, updated_at = now() where release = releaseId`:
      every row of that release, not just one. */
  function MarkReleaseDeleted(rows: seq<ReleaseRow>, releaseId: string, at: int): (r: seq<ReleaseRow>)
    ensures |r| == |rows|
    ensures forall i :: 0 <= i < |rows| && rows[i].release != releaseId ==> r[i] == rows[i]
    ensures forall i :: 0 <= i < |rows| && rows[i].release == releaseId ==>
              r[i] == rows[i].(deleted := true, updatedAt := at)
  {
    seq(|rows|, i requires 0 <= i < |rows| =>
      if rows[i].release == releaseId then rows[i].(deleted := true, updatedAt := at) else rows[i])
  }

  /** The write statements of the store, one per writing function, with the
      database clock reading `at` that `now()` gives them. */
  datatype Stmt =
    | StoreRelease(releaseId: string, appName: string, statusId: string, token: string, at: int)
    | StoreScanProfile(id: string, releaseId: string, name: string, endpoint: string,
                       status: string, token: string, at: int)
    | UpdateScanProfileStatus(id: string, status: string, at: int)
    | UpdateScanProfileReport(id: string, filename: string, at: int)
    | DeleteScanProfile(id: string, at: int)
    | DeleteRelease(releaseId: string, at: int)
    | StoreError(errorId: string, description: string, releaseId: string, scanProfileId: string, at: int)

  /** The effect of one statement that the database accepted. */
  function Apply(t: Tables, s: Stmt): Tables {
    match s
    case StoreRelease(releaseId, appName, statusId, token, at) =>
      t.(releases := t.releases + [NewRelease(releaseId, appName, statusId, token, at)])
    case StoreScanProfile(id, releaseId, name, endpoint, status, token, at) =>
      t.(profiles := t.profiles + [NewProfile(id, releaseId, name, endpoint, status, token, at)])
    case UpdateScanProfileStatus(id, status, at) => t.(profiles := SetStatus(t.profiles, id, status, at))
    case UpdateScanProfileReport(id, filename, at) => t.(profiles := SetReport(t.profiles, id, filename, at))
    case DeleteScanProfile(id, at) => t.(profiles := MarkProfileDeleted(t.profiles, id, at))
    case DeleteRelease(releaseId, at) => t.(releases := MarkReleaseDeleted(t.releases, releaseId, at))
    case StoreError(errorId, description, releaseId, scanProfileId, at) =>
      t.(errors := t.errors + [NewError(errorId, description, releaseId, scanProfileId, at)])
  }

  // ---------------------------------------------------------------------
  // Queries

  /** The statuses the reconciler still looks at. `stopped` and `timeout`
      are not among them. */
  const WorkingStatuses: set<string> :=
    {"starting", "running", "stopping", "success", "fail", "error", "profile_created"}

  lemma TerminalStatusesNotWorking()
    ensures "timeout" !in WorkingStatuses && "stopped" !in WorkingStatuses
  {
  }

  predicate Matches(j: Joined) {
    j.profile.release == j.release.release
  }

  /** The WHERE clause of the pending and running queries. */
  predicate Visible(j: Joined) {
    !j.profile.deleted && !j.release.deleted && j.profile.status in WorkingStatuses
  }

  /** The release rows joined to one profile row, in table order. */
  function JoinOne(p: ProfileRow, rs: seq<ReleaseRow>): (js: seq<Joined>)
    ensures forall j :: j in js <==> j.profile == p && j.release in rs && Matches(j)
  {
    if rs == [] then []
    else (if rs[0].release == p.release then [Joined(p, rs[0])] else []) + JoinOne(p, rs[1..])
  }

  /** `scan_profiles inner join releases on releases.release = scan_profiles.release` */
  function Join(ps: seq<ProfileRow>, rs: seq<ReleaseRow>): (js: seq<Joined>)
    ensures forall j :: j in js <==> j.profile in ps && j.release in rs && Matches(j)
  {
    if ps == [] then [] else JoinOne(ps[0], rs) + Join(ps[1..], rs)
  }

  function WhereVisible(js: seq<Joined>): (r: seq<Joined>)
    ensures forall j :: j in r <==> j in js && Visible(j)
  {
    if js == [] then []
    else (if Visible(js[0]) then [js[0]] else []) + WhereVisible(js[1..])
  }

  /** The join holds a pair once for every matching release row. */
  lemma {:induction false} JoinOneCount(p: ProfileRow, rs: seq<ReleaseRow>, j: Joined)
    ensures multiset(JoinOne(p, rs))[j] == if j.profile == p && Matches(j) then multiset(rs)[j.release] else 0
  {
    if rs != [] {
      JoinOneCount(p, rs[1..], j);
      assert rs == [rs[0]] + rs[1..];
    }
  }

  /** Arithmetic step of the join count: counts add up row by row. */
  lemma SumOfProducts(total: int, h: int, r: int, a: int, b: int, m: int)
    requires total == h + r && h == a * m && r == b * m
    ensures total == (a + b) * m
  {
  }

  /** Like the SQL inner join, a pair occurs once for every profile row and
      every release row it is made of. */
  lemma {:induction false} JoinCount(ps: seq<ProfileRow>, rs: seq<ReleaseRow>, j: Joined)
    ensures multiset(Join(ps, rs))[j] == if Matches(j) then multiset(ps)[j.profile] * multiset(rs)[j.release] else 0
  {
    if ps != [] {
      var head := JoinOne(ps[0], rs);
      var rest := Join(ps[1..], rs);
      assert Join(ps, rs) == head + rest;
      assert multiset(Join(ps, rs))[j] == multiset(head)[j] + multiset(rest)[j];
      JoinCount(ps[1..], rs, j);
      JoinOneCount(ps[0], rs, j);
      assert multiset(ps) == multiset{ps[0]} + multiset(ps[1..]) by {
        assert ps == [ps[0]] + ps[1..];
      }
      if Matches(j) {
        var m := multiset(rs)[j.release];
        var a := if ps[0] == j.profile then 1 else 0;
        var b := multiset(ps[1..])[j.profile];
        assert multiset(ps)[j.profile] == a + b;
        SumOfProducts(multiset(Join(ps, rs))[j], multiset(head)[j], multiset(rest)[j], a, b, m);
      }
    }
  }

  /** The WHERE clause keeps every copy of a visible pair and drops the rest. */
  lemma {:induction false} WhereVisibleCount(js: seq<Joined>, j: Joined)
    ensures multiset(WhereVisible(js))[j] == if Visible(j) then multiset(js)[j] else 0
  {
    if js != [] {
      WhereVisibleCount(js[1..], j);
      assert js == [js[0]] + js[1..];
    }
  }

  /** `order by scan_profiles.created_at desc` */
  predicate NewestFirst(js: seq<Joined>) {
    forall i, k :: 0 <= i < k < |js| ==> js[i].profile.createdAt >= js[k].profile.createdAt
  }

  /** A row no older than the first of a newest-first list can go in front. */
  lemma PrependNewest(j: Joined, js: seq<Joined>)
    requires NewestFirst(js) && (js == [] || j.profile.createdAt >= js[0].profile.createdAt)
    ensures NewestFirst([j] + js)
  {
    var r := [j] + js;
    forall i, k | 0 <= i < k < |r| ensures r[i].profile.createdAt >= r[k].profile.createdAt {
      if i == 0 {
        assert r[k] == js[k - 1];
      } else {
        assert r[i] == js[i - 1] && r[k] == js[k - 1];
      }
    }
  }

  /** Places `j` before the first row that is not newer than it. */
  function InsertNewestFirst(j: Joined, js: seq<Joined>): (r: seq<Joined>)
    requires NewestFirst(js)
    ensures NewestFirst(r)
    ensures multiset(r) == multiset(js) + multiset{j}
    ensures |r| == |js| + 1 && (r[0] == j || (js != [] && r[0] == js[0]))
  {
    if js == [] || j.profile.createdAt >= js[0].profile.createdAt then
      PrependNewest(j, js);
      [j] + js
    else
      assert NewestFirst(js[1..]) by {
        forall i, k | 0 <= i < k < |js| - 1 ensures js[1..][i].profile.createdAt >= js[1..][k].profile.createdAt {
          assert js[1..][i] == js[i + 1] && js[1..][k] == js[k + 1];
        }
      }
      var rest := InsertNewestFirst(j, js[1..]);
      assert js == [js[0]] + js[1..];
      assert js[0].profile.createdAt >= rest[0].profile.createdAt;
      PrependNewest(js[0], rest);
      [js[0]] + rest
  }

  /** A sorted result is a permutation of the input, so it has the same
      members. */
  lemma SameMembers(a: seq<Joined>, b: seq<Joined>)
    requires multiset(a) == multiset(b)
    ensures forall j :: j in a <==> j in b
  {
    forall j ensures j in a <==> j in b {
      assert j in a <==> j in multiset(a);
      assert j in b <==> j in multiset(b);
    }
  }

  /** A stable sort, newest `created_at` first. */
  function SortNewestFirst(js: seq<Joined>): (r: seq<Joined>)
    ensures NewestFirst(r)
    ensures multiset(r) == multiset(js)
  {
    if js == [] then []
    else
      assert js == [js[0]] + js[1..];
      InsertNewestFirst(js[0], SortNewestFirst(js[1..]))
  }

  /** Sorting rows that are already newest first leaves them as they are. */
  lemma {:induction false} SortKeepsSorted(js: seq<Joined>)
    requires NewestFirst(js)
    ensures SortNewestFirst(js) == js
  {
    if js != [] {
      SortKeepsSorted(js[1..]);
      assert js == [js[0]] + js[1..];
    }
  }

  /** getPendingProfiles: the joined rows whose profile and release are both
      not deleted and whose status is a working one, newest first. */
  function GetPendingProfiles(t: Tables): (rows: seq<Joined>)
    ensures forall j :: j in rows <==>
              j.profile in t.profiles && j.release in t.releases && Matches(j) && Visible(j)
    ensures forall j :: j in rows ==> j.profile.status != "timeout" && j.profile.status != "stopped"
    ensures NewestFirst(rows)
    ensures multiset(rows) == multiset(WhereVisible(Join(t.profiles, t.releases)))
  {
    var joined := Join(t.profiles, t.releases);
    var visible := WhereVisible(joined);
    var rows := SortNewestFirst(visible);
    SameMembers(rows, visible);
    TerminalStatusesNotWorking();
    rows
  }

  /** The pending query returns a visible pair once for every profile row
      and release row it is made of, as the SQL join does. */
  lemma PendingCount(t: Tables, j: Joined)
    ensures multiset(GetPendingProfiles(t))[j]
         == if Matches(j) && Visible(j) then multiset(t.profiles)[j.profile] * multiset(t.releases)[j.release] else 0
  {
    JoinCount(t.profiles, t.releases, j);
    WhereVisibleCount(Join(t.profiles, t.releases), j);
  }

  /** getRunningScans: the same filter and order as the pending query (it
      differs only in the columns it returns). */
  function GetRunningScans(t: Tables): (rows: seq<Joined>)
    ensures rows == GetPendingProfiles(t)
  {
    SortNewestFirst(WhereVisible(Join(t.profiles, t.releases)))
  }

  /** getAllScans: every joined row, deleted or not, newest first. */
  function GetAllScans(t: Tables): (rows: seq<Joined>)
    ensures forall j :: j in rows <==> j.profile in t.profiles && j.release in t.releases && Matches(j)
    ensures NewestFirst(rows)
    ensures multiset(rows) == multiset(Join(t.profiles, t.releases))
  {
    var joined := Join(t.profiles, t.releases);
    var rows := SortNewestFirst(joined);
    SameMembers(rows, joined);
    rows
  }

  function FirstWithId(js: seq<Joined>, id: string): (r: Option<Joined>)
    ensures r.Some? ==> r.value in js && r.value.profile.id == id
    ensures r.None? <==> forall j :: j in js ==> j.profile.id != id
    ensures r.Some? ==> exists k :: 0 <= k < |js| && js[k] == r.value &&
                          forall m :: 0 <= m < k ==> js[m].profile.id != id
  {
    if js == [] then None
    else if js[0].profile.id == id then Some(js[0])
    else
      var r := FirstWithId(js[1..], id);
      if r.Some? then
        var k :| 0 <= k < |js[1..]| && js[1..][k] == r.value &&
                 forall m :: 0 <= m < k ==> js[1..][m].profile.id != id;
        assert js[k + 1] == r.value;
        r
      else r
  }

  /** getScanProfile: the first joined row of that profile id, whatever its
      status or deleted flags; a profile with no release row is not found. */
  function GetScanProfile(t: Tables, id: string): (r: Option<Joined>)
    ensures r.Some? ==> (r.value.profile in t.profiles && r.value.release in t.releases
                         && Matches(r.value) && r.value.profile.id == id)
    ensures r.None? <==> forall p, rel :: p in t.profiles && rel in t.releases && p.release == rel.release ==> p.id != id
  {
    var js := Join(t.profiles, t.releases);
    var r := FirstWithId(js, id);
    assert r.None? ==> forall p, rel :: p in t.profiles && rel in t.releases && p.release == rel.release ==> p.id != id by {
      if r.None? {
        forall p, rel | p in t.profiles && rel in t.releases && p.release == rel.release ensures p.id != id {
          assert Joined(p, rel) in js;
        }
      }
    }
    r
  }

  /** getError: the first error row with that id, if any. */
  function GetError(errors: seq<ErrorRow>, id: string): (r: Option<ErrorRow>)
    ensures r.Some? ==> r.value in errors && r.value.id == id
    ensures r.None? <==> forall e :: e in errors ==> e.id != id
    ensures r.Some? ==> exists k :: 0 <= k < |errors| && errors[k] == r.value &&
                          forall m :: 0 <= m < k ==> errors[m].id != id
  {
    if errors == [] then None
    else if errors[0].id == id then Some(errors[0])
    else
      var r := GetError(errors[1..], id);
      if r.Some? then
        var k :| 0 <= k < |errors[1..]| && errors[1..][k] == r.value &&
                 forall m :: 0 <= m < k ==> errors[1..][m].id != id;
        assert errors[k + 1] == r.value;
        r
      else r
  }

  /** An error stored under a fresh id is the one getError finds. */
  lemma {:induction false} StoredErrorFound(errors: seq<ErrorRow>, e: ErrorRow)
    requires forall x :: x in errors ==> x.id != e.id
    ensures GetError(errors + [e], e.id) == Some(e)
  {
    if errors != [] {
      StoredErrorFound(errors[1..], e);
      assert (errors + [e])[1..] == errors[1..] + [e];
    }
  }

  // ---------------------------------------------------------------------
  // What the statements do to the queries

  /** Once soft-deleted, a profile is never returned by the pending query. */
  lemma DeletedProfileNeverPending(t: Tables, id: string, at: int)
    ensures forall j :: j in GetPendingProfiles(Apply(t, DeleteScanProfile(id, at))) ==> j.profile.id != id
  {
    var t' := Apply(t, DeleteScanProfile(id, at));
    var profiles := MarkProfileDeleted(t.profiles, id, at);
    assert t'.profiles == profiles;
    forall j | j in GetPendingProfiles(t') ensures j.profile.id != id {
      assert j.profile in profiles && Visible(j);
      var i :| 0 <= i < |profiles| && profiles[i] == j.profile;
    }
  }

  /** Once its release is soft-deleted, no profile of that release is
      returned by the pending query. */
  lemma DeletedReleaseNeverPending(t: Tables, releaseId: string, at: int)
    ensures forall j :: j in GetPendingProfiles(Apply(t, DeleteRelease(releaseId, at))) ==>
              j.profile.release != releaseId
  {
    var t' := Apply(t, DeleteRelease(releaseId, at));
    var releases := MarkReleaseDeleted(t.releases, releaseId, at);
    assert t'.releases == releases;
    forall j | j in GetPendingProfiles(t') ensures j.profile.release != releaseId {
      assert j.release in releases && Visible(j) && Matches(j);
      var i :| 0 <= i < |releases| && releases[i] == j.release;
    }
  }

  /** Soft-deleting a profile and then its release takes both out of the
      pending query. */
  lemma DeletedProfileAndReleaseNeverPending(t: Tables, id: string, releaseId: string, at: int)
    ensures forall j :: j in GetPendingProfiles(Apply(Apply(t, DeleteScanProfile(id, at)), DeleteRelease(releaseId, at))) ==>
              j.profile.id != id && j.release.release != releaseId
  {
    var t' := Apply(Apply(t, DeleteScanProfile(id, at)), DeleteRelease(releaseId, at));
    var profiles := MarkProfileDeleted(t.profiles, id, at);
    var releases := MarkReleaseDeleted(t.releases, releaseId, at);
    assert t'.profiles == profiles && t'.releases == releases;
    forall j | j in GetPendingProfiles(t') ensures j.profile.id != id && j.release.release != releaseId {
      assert j.profile in profiles && j.release in releases && Visible(j);
      var i :| 0 <= i < |profiles| && profiles[i] == j.profile;
      var k :| 0 <= k < |releases| && releases[k] == j.release;
    }
  }

  /** A profile whose status was set to `timeout` is never returned again. */
  lemma TimedOutProfileNeverPending(t: Tables, id: string, at: int)
    ensures forall j :: j in GetPendingProfiles(Apply(t, UpdateScanProfileStatus(id, "timeout", at))) ==>
              j.profile.id != id
  {
    var t' := Apply(t, UpdateScanProfileStatus(id, "timeout", at));
    var profiles := SetStatus(t.profiles, id, "timeout", at);
    assert t'.profiles == profiles;
    forall j | j in GetPendingProfiles(t') ensures j.profile.id != id {
      assert j.profile in profiles && j.profile.status != "timeout";
      var i :| 0 <= i < |profiles| && profiles[i] == j.profile;
    }
  }

  // ---------------------------------------------------------------------
  // The store

  /** The three tables, updated in place by the writing functions. */
  class Store {
    var profiles: seq<ProfileRow>
    var releases: seq<ReleaseRow>
    var errors: seq<ErrorRow>

    constructor ()
      ensures Snapshot() == Tables([], [], [])
    {
      profiles, releases, errors := [], [], [];
    }

    function Snapshot(): Tables
      reads this
    {
      Tables(profiles, releases, errors)
    }

    method StoreRelease(releaseId: string, appName: string, statusId: string, token: string, at: int)
      modifies this
      ensures releases == old(releases) + [NewRelease(releaseId, appName, statusId, token, at)]
      ensures profiles == old(profiles) && errors == old(errors)
    {
      releases := releases + [NewRelease(releaseId, appName, statusId, token, at)];
    }

    method StoreScanProfile(id: string, releaseId: string, name: string, endpoint: string,
                            status: string, token: string, at: int)
      modifies this
      ensures profiles == old(profiles) + [NewProfile(id, releaseId, name, endpoint, status, token, at)]
      ensures releases == old(releases) && errors == old(errors)
    {
      profiles := profiles + [NewProfile(id, releaseId, name, endpoint, status, token, at)];
    }

    method UpdateScanProfileStatus(id: string, status: string, at: int)
      modifies this
      ensures profiles == SetStatus(old(profiles), id, status, at)
      ensures releases == old(releases) && errors == old(errors)
    {
      profiles := SetStatus(profiles, id, status, at);
    }

    method UpdateScanProfileReport(id: string, filename: string, at: int)
      modifies this
      ensures profiles == SetReport(old(profiles), id, filename, at)
      ensures releases == old(releases) && errors == old(errors)
    {
      profiles := SetReport(profiles, id, filename, at);
    }

    method DeleteScanProfile(id: string, at: int)
      modifies this
      ensures profiles == MarkProfileDeleted(old(profiles), id, at)
      ensures releases == old(releases) && errors == old(errors)
    {
      profiles := MarkProfileDeleted(profiles, id, at);
    }

    method DeleteRelease(releaseId: string, at: int)
      modifies this
      ensures releases == MarkReleaseDeleted(old(releases), releaseId, at)
      ensures profiles == old(profiles) && errors == old(errors)
    {
      releases := MarkReleaseDeleted(releases, releaseId, at);
    }

    method StoreError(errorId: string, description: string, releaseId: string, scanProfileId: string, at: int)
      modifies this
      ensures errors == old(errors) + [NewError(errorId, description, releaseId, scanProfileId, at)]
      ensures profiles == old(profiles) && releases == old(releases)
    {
      errors := errors + [NewError(errorId, description, releaseId, scanProfileId, at)];
    }
  }
}
