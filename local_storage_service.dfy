/**
 * The on-device store of localStorageService.ts: one list of papers and, per paper,
 * lists of summaries, generated code and visualizations. Every save reads the whole
 * list, puts the new record in front and writes the list back.
 */
module LocalStorageService {

  import opened Wrappers
  import opened Text
  import opened Values

  const PapersKey: string := "research_papers"
  const SummariesPrefix: string := "summaries_"
  const CodePrefix: string := "code_"
  const VisualizationsPrefix: string := "visualizations_"
  /** The key of the guest session written by the data store (constants.ts). */
  const GuestSessionKey: string := "sr_guest_session"
  /** The name of the exception `localStorage.setItem` throws when the storage is full. */
  const QuotaExceededError: string := "QuotaExceededError"

  function SummariesKey(paperId: string): string { SummariesPrefix + paperId }
  function CodeKey(paperId: string): string { CodePrefix + paperId }
  function VisualizationsKey(paperId: string): string { VisualizationsPrefix + paperId }

  /** The four kinds of key never collide, and a per-paper key determines its paper. */
  lemma KeysDistinct(p: string, q: string)
    ensures SummariesKey(p) != PapersKey && CodeKey(p) != PapersKey && VisualizationsKey(p) != PapersKey
    ensures SummariesKey(p) != CodeKey(q) && SummariesKey(p) != VisualizationsKey(q) && CodeKey(p) != VisualizationsKey(q)
    ensures SummariesKey(p) != GuestSessionKey && CodeKey(p) != GuestSessionKey
    ensures VisualizationsKey(p) != GuestSessionKey && PapersKey != GuestSessionKey
    ensures SummariesKey(p) == SummariesKey(q) ==> p == q
    ensures CodeKey(p) == CodeKey(q) ==> p == q
    ensures VisualizationsKey(p) == VisualizationsKey(q) ==> p == q
  {
    assert SummariesKey(p)[0] == 's' && SummariesKey(p)[1] == 'u';
    assert CodeKey(p)[0] == 'c' && CodeKey(q)[0] == 'c';
    assert VisualizationsKey(p)[0] == 'v' && VisualizationsKey(q)[0] == 'v';
    assert PapersKey[0] == 'r' && GuestSessionKey[1] == 'r';
    if SummariesKey(p) == SummariesKey(q) {
      assert p == SummariesKey(p)[|SummariesPrefix|..] && q == SummariesKey(q)[|SummariesPrefix|..];
    }
    if CodeKey(p) == CodeKey(q) {
      assert p == CodeKey(p)[|CodePrefix|..] && q == CodeKey(q)[|CodePrefix|..];
    }
    if VisualizationsKey(p) == VisualizationsKey(q) {
      assert p == VisualizationsKey(p)[|VisualizationsPrefix|..] && q == VisualizationsKey(q)[|VisualizationsPrefix|..];
    }
  }

  /** The `sr_guest_session` entry: nothing stored, text that `JSON.parse` rejects, or a parsed value. */
  datatype SessionSlot = Absent | Malformed | Parsed(value: Json)

  /**
   * `window.localStorage`. The list-valued keys are `lists`, already parsed from their JSON text;
   * the guest session key, which holds one object, is `session`. `full` says that
   * `setItem` throws, as it does once the storage quota is exhausted.
   */
  class LocalStorage {
    var lists: map<string, seq<Record>>
    var session: SessionSlot
    const full: bool

    constructor (full: bool)
      ensures lists == map[] && session == Absent && this.full == full
    {
      lists := map[];
      session := Absent;
      this.full := full;
    }
  }

  /** `data ? JSON.parse(data) : []`: the list stored under `key`, or `[]` when nothing was written. */
  function Collection(lists: map<string, seq<Record>>, key: string): (c: seq<Record>)
    ensures key !in lists ==> c == []
    ensures key in lists ==> c == lists[key]
  {
    if key in lists then lists[key] else []
  }

  /** `localStorage.setItem(key, JSON.stringify(list))`: either throws or replaces exactly that key. */
  method SetItem(ls: LocalStorage, key: string, list: seq<Record>) returns (ok: bool)
    modifies ls`lists
    ensures ok == !ls.full
    ensures ok ==> ls.lists == old(ls.lists)[key := list]
    ensures !ok ==> ls.lists == old(ls.lists)
  {
    ok := !ls.full;
    if ok {
      ls.lists := ls.lists[key := list];
    }
  }

  /** A value `Math.random()` can return. */
  type Draw = u: real | 0.0 <= u < 1.0

  /**
   * What one save reads from its surroundings: `Date.now()`, a `Math.random()` draw and
   * `new Date().toISOString()`.
   */
  datatype Env = Env(now: nat, draw: Draw, iso: string)

  /** `Math.floor(Math.random() * 10000)` for a draw `u` of `Math.random()`. */
  function RandomSuffix(u: Draw): (n: nat)
    ensures n <= 9999
  {
    (u * 10000.0).Floor
  }

  /** `${Date.now()}_${Math.floor(Math.random() * 10000)}`. */
  function MakeId(now: nat, u: Draw): string {
    NatToString(now) + "_" + NatToString(RandomSuffix(u))
  }

  /** Reads an id of the form `<digits>_<digits>` back as its timestamp and suffix. */
  function ParseId(s: string): Option<(nat, nat)> {
    match FirstIndexOf(s, '_')
    case None => None
    case Some(k) =>
      var a, b := s[..k], s[k + 1..];
      if |a| > 0 && |b| > 0 && AllDigits(a) && AllDigits(b) then Some((DigitsToNat(a), DigitsToNat(b))) else None
  }

  /** A generated id matches `/^\d+_\d+$/` and gives back the clock value and the random suffix it was made from. */
  lemma ParseMakeId(now: nat, u: Draw)
    ensures ParseId(MakeId(now, u)) == Some((now, RandomSuffix(u)))
    ensures RandomSuffix(u) <= 9999
  {
    var t, n := NatToString(now), NatToString(RandomSuffix(u));
    var s := MakeId(now, u);
    assert s == t + "_" + n;
    assert s[|t|] == '_';
    assert forall k :: 0 <= k < |t| ==> s[k] == t[k] && IsDigit(t[k]);
    assert FirstIndexOf(s, '_') == Some(|t|);
    assert s[..|t|] == t && s[|t| + 1..] == n;
    NatToStringRoundTrip(now);
    NatToStringRoundTrip(RandomSuffix(u));
  }

  /** `{ ...paper, id, uploadDate }`: the generated fields win over any such fields of the input. */
  function NewPaper(paper: Record, id: string, uploadDate: string): (p: Record)
    ensures p.Keys == paper.Keys + {"id", "uploadDate"}
    ensures p["id"] == JStr(id) && p["uploadDate"] == JStr(uploadDate)
    ensures forall k :: k in paper && k != "id" && k != "uploadDate" ==> p[k] == paper[k]
  {
    Spread(paper, map["id" := JStr(id), "uploadDate" := JStr(uploadDate)])
  }

  /** `{ ...{ paperId, targetAge, content }, id, createdAt }`. */
  function NewSummary(paperId: string, targetAge: int, content: Json, id: string, createdAt: string): (s: Record)
    ensures s.Keys == {"paperId", "targetAge", "content", "id", "createdAt"}
    ensures s["paperId"] == JStr(paperId) && s["targetAge"] == JNum(targetAge) && s["content"] == content
    ensures s["id"] == JStr(id) && s["createdAt"] == JStr(createdAt)
  {
    Spread(map["paperId" := JStr(paperId), "targetAge" := JNum(targetAge), "content" := content],
           map["id" := JStr(id), "createdAt" := JStr(createdAt)])
  }

  /** `{ id, paperId, createdAt, ...record }`: the caller's own fields win over the generated ones. */
  function NewChildRecord(paperId: string, record: Record, id: string, createdAt: string): (r: Record)
    ensures r.Keys == record.Keys + {"id", "paperId", "createdAt"}
    ensures forall k :: k in record ==> r[k] == record[k]
    ensures "id" !in record ==> r["id"] == JStr(id)
    ensures "paperId" !in record ==> r["paperId"] == JStr(paperId)
    ensures "createdAt" !in record ==> r["createdAt"] == JStr(createdAt)
  {
    Spread(map["id" := JStr(id), "paperId" := JStr(paperId), "createdAt" := JStr(createdAt)], record)
  }

  function GetPapers(ls: LocalStorage): (r: seq<Record>)
    reads ls
    ensures PapersKey !in ls.lists ==> r == []
    ensures PapersKey in ls.lists ==> r == ls.lists[PapersKey]
  {
    Collection(ls.lists, PapersKey)
  }

  function GetSummaries(ls: LocalStorage, paperId: string): (r: seq<Record>)
    reads ls
    ensures SummariesKey(paperId) !in ls.lists ==> r == []
    ensures SummariesKey(paperId) in ls.lists ==> r == ls.lists[SummariesKey(paperId)]
  {
    Collection(ls.lists, SummariesKey(paperId))
  }

  function GetCode(ls: LocalStorage, paperId: string): (r: seq<Record>)
    reads ls
    ensures CodeKey(paperId) !in ls.lists ==> r == []
    ensures CodeKey(paperId) in ls.lists ==> r == ls.lists[CodeKey(paperId)]
  {
    Collection(ls.lists, CodeKey(paperId))
  }

  function GetVisualizations(ls: LocalStorage, paperId: string): (r: seq<Record>)
    reads ls
    ensures VisualizationsKey(paperId) !in ls.lists ==> r == []
    ensures VisualizationsKey(paperId) in ls.lists ==> r == ls.lists[VisualizationsKey(paperId)]
  {
    Collection(ls.lists, VisualizationsKey(paperId))
  }

  /** `getPapers().find(p => p.id === paperId) || null`. */
  function GetPaperById(ls: LocalStorage, paperId: string): (r: Option<Record>)
    reads ls
    ensures r.Some? ==> Field(r.value, "id") == JStr(paperId)
    ensures r.Some? ==> (exists i :: 0 <= i < |GetPapers(ls)| && GetPapers(ls)[i] == r.value
                           && forall j :: 0 <= j < i ==> Field(GetPapers(ls)[j], "id") != JStr(paperId))
    ensures r.None? <==> forall j :: 0 <= j < |GetPapers(ls)| ==> Field(GetPapers(ls)[j], "id") != JStr(paperId)
  {
    var papers := GetPapers(ls);
    match FindFirst(papers, "id", JStr(paperId))
    case None => None
    case Some(i) => Some(papers[i])
  }

  method SavePaper(ls: LocalStorage, paper: Record, env: Env) returns (r: Result<Record, string>)
    modifies ls`lists
    ensures ls.full ==> r == Failure(QuotaExceededError) && ls.lists == old(ls.lists)
    ensures !ls.full ==> r == Success(NewPaper(paper, MakeId(env.now, env.draw), env.iso))
    ensures !ls.full ==> ls.lists == old(ls.lists)[PapersKey := [r.value] + old(GetPapers(ls))]
    ensures !ls.full ==> GetPapers(ls) == [r.value] + old(GetPapers(ls)) && |GetPapers(ls)| == |old(GetPapers(ls))| + 1
  {
    var papers := GetPapers(ls);
    var newPaper := NewPaper(paper, MakeId(env.now, env.draw), env.iso);
    papers := [newPaper] + papers;
    var ok := SetItem(ls, PapersKey, papers);
    r := if ok then Success(newPaper) else Failure(QuotaExceededError);
  }

  method SaveSummary(ls: LocalStorage, paperId: string, targetAge: int, content: Json, env: Env)
    returns (r: Result<Record, string>)
    modifies ls`lists
    ensures ls.full ==> r == Failure(QuotaExceededError) && ls.lists == old(ls.lists)
    ensures !ls.full ==> r == Success(NewSummary(paperId, targetAge, content, MakeId(env.now, env.draw), env.iso))
    ensures !ls.full ==> ls.lists == old(ls.lists)[SummariesKey(paperId) := [r.value] + old(GetSummaries(ls, paperId))]
  {
    var summaries := GetSummaries(ls, paperId);
    var newSummary := NewSummary(paperId, targetAge, content, MakeId(env.now, env.draw), env.iso);
    summaries := [newSummary] + summaries;
    var ok := SetItem(ls, SummariesKey(paperId), summaries);
    r := if ok then Success(newSummary) else Failure(QuotaExceededError);
  }

  method SaveCode(ls: LocalStorage, paperId: string, record: Record, env: Env)
    returns (r: Result<Record, string>)
    modifies ls`lists
    ensures ls.full ==> r == Failure(QuotaExceededError) && ls.lists == old(ls.lists)
    ensures !ls.full ==> r == Success(NewChildRecord(paperId, record, MakeId(env.now, env.draw), env.iso))
    ensures !ls.full ==> ls.lists == old(ls.lists)[CodeKey(paperId) := [r.value] + old(GetCode(ls, paperId))]
  {
    var list := GetCode(ls, paperId);
    var newRec := NewChildRecord(paperId, record, MakeId(env.now, env.draw), env.iso);
    list := [newRec] + list;
    var ok := SetItem(ls, CodeKey(paperId), list);
    r := if ok then Success(newRec) else Failure(QuotaExceededError);
  }

  method SaveVisualization(ls: LocalStorage, paperId: string, record: Record, env: Env)
    returns (r: Result<Record, string>)
    modifies ls`lists
    ensures ls.full ==> r == Failure(QuotaExceededError) && ls.lists == old(ls.lists)
    ensures !ls.full ==> r == Success(NewChildRecord(paperId, record, MakeId(env.now, env.draw), env.iso))
    ensures !ls.full ==> ls.lists == old(ls.lists)[VisualizationsKey(paperId) := [r.value] + old(GetVisualizations(ls, paperId))]
  {
    var list := GetVisualizations(ls, paperId);
    var newRec := NewChildRecord(paperId, record, MakeId(env.now, env.draw), env.iso);
    list := [newRec] + list;
    var ok := SetItem(ls, VisualizationsKey(paperId), list);
    r := if ok then Success(newRec) else Failure(QuotaExceededError);
  }

  /** Writing the summaries of `paperId` leaves the papers and every other collection as they were. */
  lemma SummaryWriteFrame(lists: map<string, seq<Record>>, paperId: string, list: seq<Record>)
    ensures var after := lists[SummariesKey(paperId) := list];
      && Collection(after, SummariesKey(paperId)) == list
      && Collection(after, PapersKey) == Collection(lists, PapersKey)
      && (forall q :: q != paperId ==> Collection(after, SummariesKey(q)) == Collection(lists, SummariesKey(q)))
      && (forall q :: Collection(after, CodeKey(q)) == Collection(lists, CodeKey(q)))
      && (forall q :: Collection(after, VisualizationsKey(q)) == Collection(lists, VisualizationsKey(q)))
  {
    forall q ensures SummariesKey(paperId) != CodeKey(q) && SummariesKey(paperId) != VisualizationsKey(q)
      && (q != paperId ==> SummariesKey(paperId) != SummariesKey(q)) {
      KeysDistinct(paperId, q);
    }
    KeysDistinct(paperId, paperId);
  }

  /** Writing the generated code of `paperId` leaves the papers and every other collection as they were. */
  lemma CodeWriteFrame(lists: map<string, seq<Record>>, paperId: string, list: seq<Record>)
    ensures var after := lists[CodeKey(paperId) := list];
      && Collection(after, CodeKey(paperId)) == list
      && Collection(after, PapersKey) == Collection(lists, PapersKey)
      && (forall q :: Collection(after, SummariesKey(q)) == Collection(lists, SummariesKey(q)))
      && (forall q :: q != paperId ==> Collection(after, CodeKey(q)) == Collection(lists, CodeKey(q)))
      && (forall q :: Collection(after, VisualizationsKey(q)) == Collection(lists, VisualizationsKey(q)))
  {
    forall q ensures CodeKey(paperId) != SummariesKey(q) && CodeKey(paperId) != VisualizationsKey(q)
      && (q != paperId ==> CodeKey(paperId) != CodeKey(q)) {
      KeysDistinct(q, paperId);
      KeysDistinct(paperId, q);
    }
    KeysDistinct(paperId, paperId);
  }

  /** Writing the visualizations of `paperId` leaves the papers and every other collection as they were. */
  lemma VisualizationWriteFrame(lists: map<string, seq<Record>>, paperId: string, list: seq<Record>)
    ensures var after := lists[VisualizationsKey(paperId) := list];
      && Collection(after, VisualizationsKey(paperId)) == list
      && Collection(after, PapersKey) == Collection(lists, PapersKey)
      && (forall q :: Collection(after, SummariesKey(q)) == Collection(lists, SummariesKey(q)))
      && (forall q :: Collection(after, CodeKey(q)) == Collection(lists, CodeKey(q)))
      && (forall q :: q != paperId ==> Collection(after, VisualizationsKey(q)) == Collection(lists, VisualizationsKey(q)))
  {
    forall q ensures VisualizationsKey(paperId) != SummariesKey(q) && VisualizationsKey(paperId) != CodeKey(q)
      && (q != paperId ==> VisualizationsKey(paperId) != VisualizationsKey(q)) {
      KeysDistinct(q, paperId);
    }
    KeysDistinct(paperId, paperId);
  }

  /** Writing the papers list leaves every per-paper collection as it was. */
  lemma PaperWriteFrame(lists: map<string, seq<Record>>, list: seq<Record>)
    ensures var after := lists[PapersKey := list];
      && Collection(after, PapersKey) == list
      && (forall q :: Collection(after, SummariesKey(q)) == Collection(lists, SummariesKey(q)))
      && (forall q :: Collection(after, CodeKey(q)) == Collection(lists, CodeKey(q)))
      && (forall q :: Collection(after, VisualizationsKey(q)) == Collection(lists, VisualizationsKey(q)))
  {
    forall q ensures SummariesKey(q) != PapersKey && CodeKey(q) != PapersKey && VisualizationsKey(q) != PapersKey {
      KeysDistinct(q, q);
    }
  }
}
