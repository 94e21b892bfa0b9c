/**
 * The unified data store of dataStore.ts. Every call first probes for a remote identity;
 * with one it goes to the remote backend, otherwise to the local store, reshaping local
 * records into the remote layout. The remote backend is an oracle: what the probe
 * and the second identity lookup return, what the paper and summary reads resolve to,
 * and what an insert into a table resolves to.
 */
module DataStore {

  import opened Wrappers
  import opened Text
  import opened Values
  import L = LocalStorageService

  /** The literal the guest lookup returns when the storage throws. */
  const GuestFallbackId: string := "guest"

  /** What `SupabaseService.getCurrentUserId()` did: resolved with an id or `null`, or threw. */
  datatype Lookup = Resolved(uid: Option<string>) | Rejected

  /** The remote backend as one data-store call observes it. */
  datatype Remote = Remote(
    probe: Lookup,                                      // the availability probe at the start of the call
    lookup: Option<string>,                             // the second `getCurrentUserId()` on the remote paths
    papers: seq<Record>,                                // what `SupabaseService.getPapers()` resolves to
    summary: Option<Record>,                            // what `SupabaseService.getSummary(...)` resolves to
    insert: (string, Record) -> Result<Record, string>) // what a save into a table resolves to or rejects with

  /** `isSupabaseReady`: remote mode exactly when the probe resolves with a non-empty id; a throw means local mode. */
  predicate IsSupabaseReady(probe: Lookup) {
    probe.Resolved? && probe.uid.Some? && probe.uid.value != ""
  }

  /** A rejected probe, a `null` id and an empty id all select the local store; any other id selects the remote one. */
  lemma ProbeDecidesMode(id: string)
    ensures !IsSupabaseReady(Rejected) && !IsSupabaseReady(Resolved(None))
    ensures IsSupabaseReady(Resolved(Some(id))) <==> id != ""
  {
  }

  // ---- Guest identity ----

  /** The session object `{ userId, displayName: 'Guest', createdAt, mode: 'guest' }`. */
  function GuestSession(userId: string, createdAt: string): Json {
    JObj(map["userId" := JStr(userId), "displayName" := JStr("Guest"), "createdAt" := JStr(createdAt), "mode" := JStr("guest")])
  }

  /** `parsed?.userId` when it is a non-empty string. */
  function StoredGuestId(slot: L.SessionSlot): (r: Option<string>)
    ensures r.Some? ==> r.value != ""
  {
    if slot.Parsed? && slot.value.JObj? && "userId" in slot.value.fields
       && slot.value.fields["userId"].JStr? && slot.value.fields["userId"].s != ""
    then Some(slot.value.fields["userId"].s)
    else None
  }

  /** `guest_${Date.now()}_${Math.floor(Math.random() * 10000)}`. */
  function NewGuestId(env: L.Env): string {
    "guest_" + L.MakeId(env.now, env.draw)
  }

  datatype GuestOutcome = GuestOutcome(id: string, slot: L.SessionSlot)

  /** What `getGuestUserId` returns and what the session entry holds afterwards. */
  function GuestStep(slot: L.SessionSlot, full: bool, env: L.Env): GuestOutcome {
    if slot.Malformed? then GuestOutcome(GuestFallbackId, slot)
    else if StoredGuestId(slot).Some? then GuestOutcome(StoredGuestId(slot).value, slot)
    else if full then GuestOutcome(GuestFallbackId, slot)
    else GuestOutcome(NewGuestId(env), L.Parsed(GuestSession(NewGuestId(env), env.iso)))
  }

  method GetGuestUserId(ls: L.LocalStorage, env: L.Env) returns (id: string)
    modifies ls`session
    ensures GuestOutcome(id, ls.session) == GuestStep(old(ls.session), ls.full, env)
  {
    var raw := ls.session;
    if raw.Malformed? {
      return GuestFallbackId;
    }
    var stored := StoredGuestId(raw);
    if stored.Some? {
      return stored.value;
    }
    id := NewGuestId(env);
    if ls.full {
      return GuestFallbackId;
    }
    ls.session := L.Parsed(GuestSession(id, env.iso));
  }

  /** A stored guest id is returned as it is, and nothing is written. */
  lemma GuestIdReused(slot: L.SessionSlot, full: bool, env: L.Env)
    requires StoredGuestId(slot).Some?
    ensures GuestStep(slot, full, env) == GuestOutcome(StoredGuestId(slot).value, slot)
  {
  }

  /**
   * Without a usable stored id a fresh `guest_<ms>_<n>` id is made and persisted; when the
   * storage cannot be read or written the literal `guest` comes back and nothing changes.
   */
  lemma GuestIdCreated(slot: L.SessionSlot, full: bool, env: L.Env)
    requires StoredGuestId(slot).None?
    ensures var o := GuestStep(slot, full, env);
      if slot.Malformed? || full then o == GuestOutcome(GuestFallbackId, slot)
      else o.id == NewGuestId(env) && o.slot == L.Parsed(GuestSession(o.id, env.iso)) && StoredGuestId(o.slot) == Some(o.id)
    ensures NewGuestId(env)[..6] == "guest_" && L.ParseId(NewGuestId(env)[6..]) == Some((env.now, L.RandomSuffix(env.draw)))
  {
    assert NewGuestId(env)[6..] == L.MakeId(env.now, env.draw);
    L.ParseMakeId(env.now, env.draw);
    if !slot.Malformed? && !full {
      assert NewGuestId(env) != "";
    }
  }

  /**
   * A second lookup returns what the first one returned and writes nothing, whatever the
   * clock and the random draw of either call.
   */
  lemma {:induction false} GuestIdStable(slot: L.SessionSlot, full: bool, env1: L.Env, env2: L.Env)
    ensures var first := GuestStep(slot, full, env1);
      GuestStep(first.slot, full, env2) == first
  {
    var first := GuestStep(slot, full, env1);
    if !slot.Malformed? && StoredGuestId(slot).None? && !full {
      var id := NewGuestId(env1);
      assert id[0] == 'g';
      assert StoredGuestId(first.slot) == Some(id);
    }
  }

  // ---- Reshaping local papers ----

  /** `mapLocalPaperToResearchPaper` for a guest id: the remote layout, both timestamps from `uploadDate`. */
  function ToResearchPaper(p: Record, userId: string): (r: Record)
    ensures r.Keys == {"id", "user_id", "title", "content", "filename", "analysis", "created_at", "updated_at"}
    ensures r["user_id"] == JStr(userId)
    ensures r["created_at"] == Field(p, "uploadDate") && r["updated_at"] == Field(p, "uploadDate")
    ensures forall k :: k in {"id", "title", "content", "filename", "analysis"} ==> r[k] == Field(p, k)
  {
    map["id" := Field(p, "id"), "user_id" := JStr(userId), "title" := Field(p, "title"),
        "content" := Field(p, "content"), "filename" := Field(p, "filename"),
        "analysis" := Field(p, "analysis"), "created_at" := Field(p, "uploadDate"),
        "updated_at" := Field(p, "uploadDate")]
  }

  /** `locals.map(mapLocalPaperToResearchPaper)` once every call sees the same guest id. */
  function MapLocalPapers(locals: seq<Record>, userId: string): (r: seq<Record>)
    ensures |r| == |locals|
    ensures forall i :: 0 <= i < |locals| ==> r[i] == ToResearchPaper(locals[i], userId)
  {
    seq(|locals|, i requires 0 <= i < |locals| => ToResearchPaper(locals[i], userId))
  }

  // ---- Remote rows ----

  /** `userId || 'guest'`. */
  function UserIdOrGuest(lookup: Option<string>): (uid: string)
    ensures lookup.Some? && lookup.value != "" ==> uid == lookup.value
    ensures !(lookup.Some? && lookup.value != "") ==> uid == GuestFallbackId
  {
    if lookup.Some? && lookup.value != "" then lookup.value else GuestFallbackId
  }

  /** The `user_id: userId || undefined` field: present only for a non-empty id. */
  function OwnerField(lookup: Option<string>): (r: Record)
    ensures "user_id" in r <==> lookup.Some? && lookup.value != ""
    ensures "user_id" in r ==> r["user_id"] == JStr(lookup.value)
    ensures r.Keys <= {"user_id"}
  {
    if lookup.Some? && lookup.value != "" then map["user_id" := JStr(lookup.value)] else map[]
  }

  /** The object handed to `SupabaseService.savePaper`: the paper's own fields and the owner when there is one. */
  function RemotePaperRow(paper: Record, lookup: Option<string>): (row: Record)
    ensures row.Keys == (paper.Keys * {"title", "content", "filename", "analysis", "file_size"}) + OwnerField(lookup).Keys
    ensures forall k :: k in paper && k in {"title", "content", "filename", "analysis", "file_size"} ==> row[k] == paper[k]
    ensures "user_id" in row <==> lookup.Some? && lookup.value != ""
  {
    Pick(paper, {"title", "content", "filename", "analysis", "file_size"}) + OwnerField(lookup)
  }

  /** The object handed to `SupabaseService.saveSummary`. */
  function RemoteSummaryRow(paperId: string, targetAge: int, content: Json, lookup: Option<string>): (row: Record)
    ensures row.Keys == {"paper_id", "target_age", "content"} + OwnerField(lookup).Keys
    ensures row["paper_id"] == JStr(paperId) && row["target_age"] == JNum(targetAge) && row["content"] == content
    ensures "user_id" in row ==> row["user_id"] == JStr(lookup.value)
  {
    map["paper_id" := JStr(paperId), "target_age" := JNum(targetAge), "content" := content] + OwnerField(lookup)
  }

  function RemoteCodeRow(paperId: string, payload: Record, lookup: Option<string>): (row: Record)
    ensures "user_id" in row && row["user_id"] == JStr(UserIdOrGuest(lookup))
    ensures "paper_id" in row && row["paper_id"] == JStr(paperId)
    ensures row.Keys == (payload.Keys * {"language", "framework", "code_content"}) + {"paper_id", "user_id"}
    ensures forall k :: k in payload && k in {"language", "framework", "code_content"} ==> row[k] == payload[k]
  {
    Pick(payload, {"language", "framework", "code_content"})
      + map["paper_id" := JStr(paperId), "user_id" := JStr(UserIdOrGuest(lookup))]
  }

  function RemoteVisualizationRow(paperId: string, payload: Record, lookup: Option<string>): (row: Record)
    ensures "user_id" in row && row["user_id"] == JStr(UserIdOrGuest(lookup))
    ensures "paper_id" in row && row["paper_id"] == JStr(paperId)
    ensures row.Keys == (payload.Keys * {"visualization_type", "config"}) + {"paper_id", "user_id"}
    ensures forall k :: k in payload && k in {"visualization_type", "config"} ==> row[k] == payload[k]
  {
    Pick(payload, {"visualization_type", "config"})
      + map["paper_id" := JStr(paperId), "user_id" := JStr(UserIdOrGuest(lookup))]
  }

  // ---- Summaries ----

  /** `found?.content || null`. */
  function TruthyContent(rec: Option<Record>): (r: Option<Json>)
    ensures r.Some? <==> rec.Some? && Truthy(Field(rec.value, "content"))
    ensures r.Some? ==> r.value == Field(rec.value, "content")
  {
    if rec.Some? && Truthy(Field(rec.value, "content")) then Some(Field(rec.value, "content")) else None
  }

  /** The local `getSummary`: the first summary of the paper whose `targetAge` is the age. */
  function LocalSummary(lists: map<string, seq<Record>>, paperId: string, targetAge: int): Option<Json> {
    var list := L.Collection(lists, L.SummariesKey(paperId));
    match FindFirst(list, "targetAge", JNum(targetAge))
    case None => None
    case Some(i) => TruthyContent(Some(list[i]))
  }

  /** Nothing was saved for the paper: no summary. */
  lemma NoSummaryBeforeSave(lists: map<string, seq<Record>>, paperId: string, targetAge: int)
    requires L.SummariesKey(paperId) !in lists
    ensures LocalSummary(lists, paperId, targetAge) == None
  {
  }

  /** After a local save the lookup for the same paper and age gives the saved content, however many came before. */
  lemma LatestSummaryWins(lists: map<string, seq<Record>>, paperId: string, targetAge: int, content: Json, id: string, createdAt: string)
    ensures var key := L.SummariesKey(paperId);
      var saved := lists[key := [L.NewSummary(paperId, targetAge, content, id, createdAt)] + L.Collection(lists, key)];
      LocalSummary(saved, paperId, targetAge) == if Truthy(content) then Some(content) else None
  {
  }

  /** A local save for one age does not change what another age finds. */
  lemma OtherAgeUnaffected(lists: map<string, seq<Record>>, paperId: string, age: int, otherAge: int, content: Json, id: string, createdAt: string)
    requires age != otherAge
    ensures var key := L.SummariesKey(paperId);
      var saved := lists[key := [L.NewSummary(paperId, age, content, id, createdAt)] + L.Collection(lists, key)];
      LocalSummary(saved, paperId, otherAge) == LocalSummary(lists, paperId, otherAge)
  {
    var key := L.SummariesKey(paperId);
    var old_ := L.Collection(lists, key);
    var rec := L.NewSummary(paperId, age, content, id, createdAt);
    var list := [rec] + old_;
    assert list[1..] == old_;
    assert Field(rec, "targetAge") != JNum(otherAge);
    match FindFirst(old_, "targetAge", JNum(otherAge))
    case None =>
    case Some(i) =>
      assert list[i + 1] == old_[i];
  }

  // ---- The DataStore operations ----

  method GetCurrentUserId(ls: L.LocalStorage, remote: Remote, guestEnv: L.Env) returns (r: Option<string>)
    modifies ls`session
    ensures IsSupabaseReady(remote.probe) ==> r == remote.lookup && ls.session == old(ls.session)
    ensures !IsSupabaseReady(remote.probe) ==>
      var g := GuestStep(old(ls.session), ls.full, guestEnv);
      r == Some(g.id) && ls.session == g.slot
  {
    if IsSupabaseReady(remote.probe) {
      return remote.lookup;
    }
    var id := GetGuestUserId(ls, guestEnv);
    r := Some(id);
  }

  method GetPapers(ls: L.LocalStorage, remote: Remote, guestEnv: L.Env) returns (r: seq<Record>)
    modifies ls`session
    ensures IsSupabaseReady(remote.probe) ==> r == remote.papers && ls.session == old(ls.session)
    ensures !IsSupabaseReady(remote.probe) ==>
      var g := GuestStep(old(ls.session), ls.full, guestEnv);
      && r == MapLocalPapers(L.GetPapers(ls), g.id)
      && ls.session == if |L.GetPapers(ls)| == 0 then old(ls.session) else g.slot
  {
    if IsSupabaseReady(remote.probe) {
      return remote.papers;
    }
    var locals := L.GetPapers(ls);
    ghost var g := GuestStep(ls.session, ls.full, guestEnv);
    var out: seq<Record> := [];
    var i := 0;
    while i < |locals|
      invariant 0 <= i <= |locals| && |out| == i
      invariant forall j :: 0 <= j < i ==> out[j] == ToResearchPaper(locals[j], g.id)
      invariant ls.session == if i == 0 then old(ls.session) else g.slot
    {
      GuestIdStable(old(ls.session), ls.full, guestEnv, guestEnv);
      var gid := GetGuestUserId(ls, guestEnv);
      out := out + [ToResearchPaper(locals[i], gid)];
      i := i + 1;
    }
    r := out;
  }

  method SavePaper(ls: L.LocalStorage, remote: Remote, paper: Record, env: L.Env, guestEnv: L.Env)
    returns (r: Result<Record, string>)
    modifies ls
    ensures IsSupabaseReady(remote.probe) ==>
      r == remote.insert("research_papers", RemotePaperRow(paper, remote.lookup))
      && ls.lists == old(ls.lists) && ls.session == old(ls.session)
    ensures !IsSupabaseReady(remote.probe) && ls.full ==>
      r == Failure(L.QuotaExceededError) && ls.lists == old(ls.lists) && ls.session == old(ls.session)
    ensures !IsSupabaseReady(remote.probe) && !ls.full ==>
      var local := L.NewPaper(Pick(paper, {"title", "content", "filename", "analysis"}), L.MakeId(env.now, env.draw), env.iso);
      var g := GuestStep(old(ls.session), false, guestEnv);
      && ls.lists == old(ls.lists)[L.PapersKey := [local] + old(L.GetPapers(ls))]
      && r == Success(ToResearchPaper(local, g.id))
      && ls.session == g.slot
  {
    if IsSupabaseReady(remote.probe) {
      return remote.insert("research_papers", RemotePaperRow(paper, remote.lookup));
    }
    var local := L.SavePaper(ls, Pick(paper, {"title", "content", "filename", "analysis"}), env);
    if local.Failure? {
      return Failure(local.error);
    }
    var gid := GetGuestUserId(ls, guestEnv);
    r := Success(ToResearchPaper(local.value, gid));
  }

  function GetSummary(ls: L.LocalStorage, remote: Remote, paperId: string, targetAge: int): (r: Option<Json>)
    reads ls
    ensures IsSupabaseReady(remote.probe) ==> r == TruthyContent(remote.summary)
    ensures !IsSupabaseReady(remote.probe) ==> r == LocalSummary(ls.lists, paperId, targetAge)
  {
    if IsSupabaseReady(remote.probe) then TruthyContent(remote.summary)
    else LocalSummary(ls.lists, paperId, targetAge)
  }

  method SaveSummary(ls: L.LocalStorage, remote: Remote, paperId: string, targetAge: int, content: Json, env: L.Env)
    returns (r: Result<Json, string>)
    modifies ls`lists
    ensures IsSupabaseReady(remote.probe) ==> (ls.lists == old(ls.lists) &&
      r == match remote.insert("summaries", RemoteSummaryRow(paperId, targetAge, content, remote.lookup))
           case Success(saved) => Success(Field(saved, "content"))
           case Failure(e) => Failure(e))
    ensures !IsSupabaseReady(remote.probe) && ls.full ==> r == Failure(L.QuotaExceededError) && ls.lists == old(ls.lists)
    ensures !IsSupabaseReady(remote.probe) && !ls.full ==>
      && r == Success(content)
      && ls.lists == old(ls.lists)[L.SummariesKey(paperId) :=
           [L.NewSummary(paperId, targetAge, content, L.MakeId(env.now, env.draw), env.iso)] + old(L.GetSummaries(ls, paperId))]
      && LocalSummary(ls.lists, paperId, targetAge) == (if Truthy(content) then Some(content) else None)
  {
    if IsSupabaseReady(remote.probe) {
      var saved := remote.insert("summaries", RemoteSummaryRow(paperId, targetAge, content, remote.lookup));
      return match saved
        case Success(row) => Success(Field(row, "content"))
        case Failure(e) => Failure(e);
    }
    ghost var before := ls.lists;
    var savedLocal := L.SaveSummary(ls, paperId, targetAge, content, env);
    if savedLocal.Failure? {
      return Failure(savedLocal.error);
    }
    LatestSummaryWins(before, paperId, targetAge, content, L.MakeId(env.now, env.draw), env.iso);
    r := Success(Field(savedLocal.value, "content"));
  }

  method SaveCodeGeneration(ls: L.LocalStorage, remote: Remote, paperId: string, payload: Record, env: L.Env)
    returns (r: Result<Record, string>)
    modifies ls`lists
    ensures IsSupabaseReady(remote.probe) ==>
      r == remote.insert("code_generations", RemoteCodeRow(paperId, payload, remote.lookup)) && ls.lists == old(ls.lists)
    ensures !IsSupabaseReady(remote.probe) && ls.full ==> r == Failure(L.QuotaExceededError) && ls.lists == old(ls.lists)
    ensures !IsSupabaseReady(remote.probe) && !ls.full ==>
      && r == Success(L.NewChildRecord(paperId, payload, L.MakeId(env.now, env.draw), env.iso))
      && ls.lists == old(ls.lists)[L.CodeKey(paperId) := [r.value] + old(L.GetCode(ls, paperId))]
  {
    if IsSupabaseReady(remote.probe) {
      return remote.insert("code_generations", RemoteCodeRow(paperId, payload, remote.lookup));
    }
    r := L.SaveCode(ls, paperId, payload, env);
  }

  method SaveVisualization(ls: L.LocalStorage, remote: Remote, paperId: string, payload: Record, env: L.Env)
    returns (r: Result<Record, string>)
    modifies ls`lists
    ensures IsSupabaseReady(remote.probe) ==>
      r == remote.insert("visualizations", RemoteVisualizationRow(paperId, payload, remote.lookup)) && ls.lists == old(ls.lists)
    ensures !IsSupabaseReady(remote.probe) && ls.full ==> r == Failure(L.QuotaExceededError) && ls.lists == old(ls.lists)
    ensures !IsSupabaseReady(remote.probe) && !ls.full ==>
      && r == Success(L.NewChildRecord(paperId, payload, L.MakeId(env.now, env.draw), env.iso))
      && ls.lists == old(ls.lists)[L.VisualizationsKey(paperId) := [r.value] + old(L.GetVisualizations(ls, paperId))]
  {
    if IsSupabaseReady(remote.probe) {
      return remote.insert("visualizations", RemoteVisualizationRow(paperId, payload, remote.lookup));
    }
    r := L.SaveVisualization(ls, paperId, payload, env);
  }

  /** Both modes read the local visualizations; the remote backend is never asked. */
  function GetVisualizations(ls: L.LocalStorage, remote: Remote, paperId: string): (r: seq<Record>)
    reads ls
    ensures r == L.GetVisualizations(ls, paperId)
  {
    if IsSupabaseReady(remote.probe) then L.GetVisualizations(ls, paperId) else L.GetVisualizations(ls, paperId)
  }
}
