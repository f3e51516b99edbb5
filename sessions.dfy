/**
 * The session manager: the index of sessions, the current session with its
 * entities, queries and messages, the per-session files, summaries and search.
 *
 * Session files are a map from session id to the stored session; the index
 * file is only read at start-up. The clock is read once per public call, as
 * the parameter `now`.
 */
module Sessions {
  import opened Wrappers
  import opened Text
  import opened JsonValue

  datatype Entity = Entity(kind: string, name: string, timestamp: int, metadata: map<string, Json>)
  datatype Query = Query(query: string, tool: string, timestamp: int, parameters: map<string, Json>, results: seq<Json>)
  datatype Message = Message(role: string, content: string, timestamp: int, metadata: map<string, Json>)

  /** A session record; `name` and `startTime` are None where the record has no such key. */
  datatype Session = Session(
    id: Option<string>,
    name: Option<string>,
    startTime: Option<int>,
    entities: seq<Entity>,
    queries: seq<Query>,
    messages: seq<Message>)

  /** The blank session held while no session is active. */
  const NO_SESSION := Session(None, None, None, [], [], [])

  /** One entry of the sessions index. */
  datatype IndexRecord = IndexRecord(
    id: string,
    name: string,
    startTime: int,
    lastUpdated: int,
    entityCount: int,
    queryCount: int,
    messageCount: int)

  /** `metadata or {}` */
  function OrEmpty(m: Option<map<string, Json>>): map<string, Json>
  {
    if m.Some? then m.value else map[]
  }

  /** `session_id or fallback`: a missing or empty id gives way to the fallback. */
  function OrElse(id: Option<string>, fallback: Option<string>): Option<string>
  {
    if id.Some? && id.value != "" then id else fallback
  }

  // ---------------------------------------------------------------- the index

  /** The position of the first index record with the given id, or -1. */
  function FindId(index: seq<IndexRecord>, id: string): (k: int)
    ensures -1 <= k < |index|
    ensures k >= 0 ==> index[k].id == id
    ensures forall j :: 0 <= j < |index| && (k < 0 || j < k) ==> index[j].id != id
    decreases |index|
  {
    if index == [] then -1
    else if index[0].id == id then 0
    else
      var k := FindId(index[1..], id);
      if k < 0 then -1 else k + 1
  }

  /** An index record brought up to date with a session's list lengths. */
  function Synced(r: IndexRecord, s: Session, now: int): IndexRecord
  {
    r.(lastUpdated := now, entityCount := |s.entities|, queryCount := |s.queries|, messageCount := |s.messages|)
  }

  /** The index after a save: only the first record with the session's id is updated. */
  function SyncedIndex(index: seq<IndexRecord>, id: string, s: Session, now: int): seq<IndexRecord>
  {
    var k := FindId(index, id);
    if k < 0 then index else index[k := Synced(index[k], s, now)]
  }

  /**
   * After a save the first record with the id carries the session's current
   * counts and the time of the save; every other record, including later ones
   * with the same id, is unchanged.
   */
  lemma SyncedIndexSpec(index: seq<IndexRecord>, id: string, s: Session, now: int)
    ensures |SyncedIndex(index, id, s, now)| == |index|
    ensures forall j :: 0 <= j < |index| && j != FindId(index, id) ==> SyncedIndex(index, id, s, now)[j] == index[j]
    ensures FindId(index, id) >= 0 ==>
      var r := SyncedIndex(index, id, s, now)[FindId(index, id)];
      && r.id == id && r.name == index[FindId(index, id)].name && r.startTime == index[FindId(index, id)].startTime
      && r.lastUpdated == now
      && r.entityCount == |s.entities| && r.queryCount == |s.queries| && r.messageCount == |s.messages|
    ensures (forall j :: 0 <= j < |index| ==> index[j].id != id) ==> SyncedIndex(index, id, s, now) == index
  {
  }

  /** The records whose id differs, in order. */
  function WithoutId(index: seq<IndexRecord>, id: string): (r: seq<IndexRecord>)
    ensures forall x :: x in r <==> x in index && x.id != id
    ensures |r| <= |index|
    decreases |index|
  {
    if index == [] then []
    else
      var last := index[|index| - 1];
      assert index == index[..|index| - 1] + [last];
      WithoutId(index[..|index| - 1], id) + (if last.id == id then [] else [last])
  }

  /** Removing an id that is not in the index keeps the index as it is. */
  lemma {:induction false} WithoutAbsentId(index: seq<IndexRecord>, id: string)
    requires forall j :: 0 <= j < |index| ==> index[j].id != id
    ensures WithoutId(index, id) == index
    decreases |index|
  {
    if index != [] {
      var n := |index|;
      WithoutAbsentId(index[..n - 1], id);
      assert index[..n - 1] + [index[n - 1]] == index;
    }
  }

  /** The record itself when its id differs. */
  function OtherId(id: string): IndexRecord -> Option<IndexRecord>
  {
    (rec: IndexRecord) => if rec.id != id then Some(rec) else None
  }

  lemma {:induction false} WithoutIdCollect(index: seq<IndexRecord>, id: string)
    ensures WithoutId(index, id) == Collect(index, OtherId(id))
    decreases |index|
  {
    if index != [] {
      WithoutIdCollect(index[..|index| - 1], id);
    }
  }

  /**
   * `WithoutId` is the filter of the list comprehension: `pos` lists, in
   * increasing order, exactly the positions whose record has a different id,
   * and the result holds those records in that order.
   */
  lemma WithoutIdInOrder(index: seq<IndexRecord>, id: string) returns (pos: seq<int>)
    ensures |pos| == |WithoutId(index, id)|
    ensures forall a :: 0 <= a < |pos| ==>
      0 <= pos[a] < |index| && index[pos[a]].id != id && WithoutId(index, id)[a] == index[pos[a]]
    ensures forall a, b :: 0 <= a < b < |pos| ==> pos[a] < pos[b]
    ensures forall j :: 0 <= j < |index| && index[j].id != id ==> j in pos
  {
    WithoutIdCollect(index, id);
    pos := CollectInOrder(index, OtherId(id));
  }

  // ---------------------------------------------------------------- tallies

  /** A dictionary of counts in insertion order, as `d[k] = d.get(k, 0) + 1` builds it. */
  type Tally = seq<(string, int)>

  /** `d[k] = d.get(k, 0) + 1` */
  function Bump(t: Tally, k: string): Tally
    decreases |t|
  {
    if t == [] then [(k, 1)]
    else if t[0].0 == k then [(k, t[0].1 + 1)] + t[1..]
    else [t[0]] + Bump(t[1..], k)
  }

  /** The tally of a sequence of keys. */
  function TallyOf(keys: seq<string>): Tally
    decreases |keys|
  {
    if keys == [] then [] else Bump(TallyOf(keys[..|keys| - 1]), keys[|keys| - 1])
  }

  /** The total of the counts. */
  function Total(t: Tally): int
    decreases |t|
  {
    if t == [] then 0 else t[0].1 + Total(t[1..])
  }

  /** `d.get(k, 0)` */
  function CountOf(t: Tally, k: string): int
    decreases |t|
  {
    if t == [] then 0 else if t[0].0 == k then t[0].1 else CountOf(t[1..], k)
  }

  /** How often `k` occurs in `keys`. */
  function Occurrences(keys: seq<string>, k: string): nat
    decreases |keys|
  {
    if keys == [] then 0
    else Occurrences(keys[..|keys| - 1], k) + (if keys[|keys| - 1] == k then 1 else 0)
  }

  lemma {:induction false} BumpTotal(t: Tally, k: string)
    ensures Total(Bump(t, k)) == Total(t) + 1
    decreases |t|
  {
    if t != [] && t[0].0 != k {
      BumpTotal(t[1..], k);
      assert ([t[0]] + Bump(t[1..], k))[1..] == Bump(t[1..], k);
    }
    if t != [] && t[0].0 == k {
      assert ([(k, t[0].1 + 1)] + t[1..])[1..] == t[1..];
    }
  }

  lemma {:induction false} BumpCount(t: Tally, k: string, q: string)
    ensures CountOf(Bump(t, k), q) == CountOf(t, q) + (if q == k then 1 else 0)
    decreases |t|
  {
    if t != [] && t[0].0 != k {
      BumpCount(t[1..], k, q);
      assert ([t[0]] + Bump(t[1..], k))[1..] == Bump(t[1..], k);
    }
    if t != [] && t[0].0 == k {
      assert ([(k, t[0].1 + 1)] + t[1..])[1..] == t[1..];
    }
  }

  /** The counts of a tally add up to the number of keys counted. */
  lemma {:induction false} TallyTotal(keys: seq<string>)
    ensures Total(TallyOf(keys)) == |keys|
    decreases |keys|
  {
    if keys != [] {
      TallyTotal(keys[..|keys| - 1]);
      BumpTotal(TallyOf(keys[..|keys| - 1]), keys[|keys| - 1]);
    }
  }

  /** Each key's count is the number of times it occurs. */
  lemma {:induction false} TallyCounts(keys: seq<string>, q: string)
    ensures CountOf(TallyOf(keys), q) == Occurrences(keys, q)
    decreases |keys|
  {
    if keys != [] {
      TallyCounts(keys[..|keys| - 1], q);
      BumpCount(TallyOf(keys[..|keys| - 1]), keys[|keys| - 1], q);
    }
  }

  /** The counting loop of `summarize_session`. */
  method CountBy(keys: seq<string>) returns (t: Tally)
    ensures t == TallyOf(keys)
  {
    t := [];
    var i := 0;
    while i < |keys|
      invariant 0 <= i <= |keys|
      invariant t == TallyOf(keys[..i])
    {
      assert keys[..i + 1][..i] == keys[..i];
      t := Bump(t, keys[i]);
      i := i + 1;
    }
    assert keys[..i] == keys;
  }

  // ---------------------------------------------------------------- summaries

  function EntityKinds(es: seq<Entity>): (r: seq<string>)
    ensures |r| == |es| && forall i :: 0 <= i < |es| ==> r[i] == es[i].kind
  {
    seq(|es|, i requires 0 <= i < |es| => es[i].kind)
  }

  function EntityNames(es: seq<Entity>): (r: seq<string>)
    ensures |r| == |es| && forall i :: 0 <= i < |es| ==> r[i] == es[i].name
  {
    seq(|es|, i requires 0 <= i < |es| => es[i].name)
  }

  function QueryTools(qs: seq<Query>): (r: seq<string>)
    ensures |r| == |qs| && forall i :: 0 <= i < |qs| ==> r[i] == qs[i].tool
  {
    seq(|qs|, i requires 0 <= i < |qs| => qs[i].tool)
  }

  function QueryStrings(qs: seq<Query>): (r: seq<string>)
    ensures |r| == |qs| && forall i :: 0 <= i < |qs| ==> r[i] == qs[i].query
  {
    seq(|qs|, i requires 0 <= i < |qs| => qs[i].query)
  }

  function MessageRoles(ms: seq<Message>): (r: seq<string>)
    ensures |r| == |ms| && forall i :: 0 <= i < |ms| ==> r[i] == ms[i].role
  {
    seq(|ms|, i requires 0 <= i < |ms| => ms[i].role)
  }

  datatype Summary = Summary(
    id: string,
    name: string,
    startTime: int,
    duration: int,
    entityCount: int,
    entityTypes: Tally,
    queryCount: int,
    toolUsage: Tally,
    messageCount: int,
    messageRoles: Tally,
    entities: seq<string>,
    lastQueries: seq<string>)

  /** The time from the session's start to its last message, or 0 without messages. */
  function Duration(messages: seq<Message>, start: int): int
  {
    if |messages| > 0 then messages[|messages| - 1].timestamp - start else 0
  }

  /** The summary of a session record with a start time. */
  function Summarize(id: string, data: Session): (s: Summary)
    requires data.startTime.Some?
  {
    Summary(id, data.name.UnwrapOr("Unnamed Session"), data.startTime.value,
      Duration(data.messages, data.startTime.value),
      |data.entities|, TallyOf(EntityKinds(data.entities)),
      |data.queries|, TallyOf(QueryTools(data.queries)),
      |data.messages|, TallyOf(MessageRoles(data.messages)),
      EntityNames(data.entities),
      if data.queries != [] then TakeLast(QueryStrings(data.queries), 5) else [])
  }

  /**
   * Each histogram adds up to the length of its list and counts every key
   * exactly as often as it occurs; `last_queries` are the last five or fewer
   * query strings, in order.
   */
  lemma SummaryCounts(id: string, data: Session)
    requires data.startTime.Some?
    ensures var s := Summarize(id, data);
      && Total(s.entityTypes) == s.entityCount == |data.entities|
      && Total(s.toolUsage) == s.queryCount == |data.queries|
      && Total(s.messageRoles) == s.messageCount == |data.messages|
      && s.entities == EntityNames(data.entities)
    ensures forall k :: CountOf(Summarize(id, data).entityTypes, k) == Occurrences(EntityKinds(data.entities), k)
    ensures forall k :: CountOf(Summarize(id, data).toolUsage, k) == Occurrences(QueryTools(data.queries), k)
    ensures forall k :: CountOf(Summarize(id, data).messageRoles, k) == Occurrences(MessageRoles(data.messages), k)
    ensures var lq := Summarize(id, data).lastQueries; var n := |data.queries|;
      && |lq| == (if n < 5 then n else 5)
      && forall i :: 0 <= i < |lq| ==> lq[i] == data.queries[n - |lq| + i].query
  {
    TallyTotal(EntityKinds(data.entities));
    TallyTotal(QueryTools(data.queries));
    TallyTotal(MessageRoles(data.messages));
    forall k ensures CountOf(Summarize(id, data).entityTypes, k) == Occurrences(EntityKinds(data.entities), k) {
      TallyCounts(EntityKinds(data.entities), k);
    }
    forall k ensures CountOf(Summarize(id, data).toolUsage, k) == Occurrences(QueryTools(data.queries), k) {
      TallyCounts(QueryTools(data.queries), k);
    }
    forall k ensures CountOf(Summarize(id, data).messageRoles, k) == Occurrences(MessageRoles(data.messages), k) {
      TallyCounts(MessageRoles(data.messages), k);
    }
  }

  // ---------------------------------------------------------------- search

  datatype MessageMatch = MessageMatch(role: string, snippet: string)

  datatype SearchHit = SearchHit(
    id: string,
    name: string,
    entityMatches: seq<string>,
    queryMatches: seq<string>,
    messageMatches: seq<MessageMatch>)

  /** The window of up to 50 characters either side of the first match, between `...` marks. */
  function Snippet(content: string, term: string): (r: string)
    requires Contains(Lower(content), term)
  {
    var i := Find(Lower(content), term);
    var start := if i - 50 < 0 then 0 else i - 50;
    var end := if |content| < i + |term| + 50 then |content| else i + |term| + 50;
    "..." + content[start..end] + "..."
  }

  /** The text between the marks of a snippet still contains the term, case-insensitively. */
  lemma SnippetHasTerm(content: string, term: string)
    requires Contains(Lower(content), term)
    ensures var inner := Snippet(content, term)[3..|Snippet(content, term)| - 3];
      && Contains(Lower(inner), term)
      && |inner| <= |term| + 100
  {
    var low := Lower(content);
    var i := Find(low, term);
    var start := if i - 50 < 0 then 0 else i - 50;
    var end := if |content| < i + |term| + 50 then |content| else i + |term| + 50;
    var inner := content[start..end];
    assert Snippet(content, term) == "..." + inner + "...";
    BetweenMarks(inner);
    InnerHasTerm(content, term, i, start, end);
  }

  /** A window of the content around an occurrence of the term in its lowered form. */
  lemma InnerHasTerm(content: string, term: string, i: int, start: int, end: int)
    requires OccursAt(Lower(content), term, i) && 0 <= start <= i && i + |term| <= end <= |content|
    ensures Contains(Lower(content[start..end]), term)
  {
    LowerSlice(content, start, end);
    WindowContains(Lower(content), term, i, start, end);
  }

  /** The text between the two marks. */
  lemma BetweenMarks(x: string)
    ensures var m := "..." + x + "..."; m[3..|m| - 3] == x
  {
  }

  /** A window around an occurrence still holds it. */
  lemma WindowContains(s: string, term: string, i: int, start: int, end: int)
    requires OccursAt(s, term, i) && 0 <= start <= i && i + |term| <= end <= |s|
    ensures Contains(s[start..end], term)
  {
    SliceOfSlice(s, start, end, i - start, i - start + |term|);
    ContainsAt(s[start..end], term, i - start);
  }

  /** A slice of a slice is a slice. */
  lemma SliceOfSlice<T>(s: seq<T>, a: int, b: int, c: int, d: int)
    requires 0 <= a <= b <= |s| && 0 <= c <= d <= b - a
    ensures s[a..b][c..d] == s[a + c..a + d]
  {
    forall k | 0 <= k < d - c ensures s[a..b][c..d][k] == s[a + c..a + d][k] {
    }
  }

  /** Lowering commutes with slicing. */
  lemma LowerSlice(s: string, a: int, b: int)
    requires 0 <= a <= b <= |s|
    ensures Lower(s[a..b]) == Lower(s)[a..b]
  {
  }

  function EntityMatches(es: seq<Entity>, term: string): (r: seq<string>)
    ensures r == [] <==> forall i :: 0 <= i < |es| ==> !Contains(Lower(es[i].name), term)
    decreases |es|
  {
    if es == [] then []
    else
      var e := es[|es| - 1];
      EntityMatches(es[..|es| - 1], term) + (if Contains(Lower(e.name), term) then [e.name] else [])
  }

  function QueryMatches(qs: seq<Query>, term: string): (r: seq<string>)
    ensures r == [] <==> forall i :: 0 <= i < |qs| ==> !Contains(Lower(qs[i].query), term)
    decreases |qs|
  {
    if qs == [] then []
    else
      var q := qs[|qs| - 1];
      QueryMatches(qs[..|qs| - 1], term) + (if Contains(Lower(q.query), term) then [q.query] else [])
  }

  function MessageMatches(ms: seq<Message>, term: string): (r: seq<MessageMatch>)
    ensures r == [] <==> forall i :: 0 <= i < |ms| ==> !Contains(Lower(ms[i].content), term)
    decreases |ms|
  {
    if ms == [] then []
    else
      var m := ms[|ms| - 1];
      MessageMatches(ms[..|ms| - 1], term)
        + (if Contains(Lower(m.content), term) then [MessageMatch(m.role, Snippet(m.content, term))] else [])
  }

  /** The name of an entity that matches the term. */
  function EntityHit(term: string): Entity -> Option<string>
  {
    (e: Entity) => if Contains(Lower(e.name), term) then Some(e.name) else None
  }

  /** The text of a query that matches the term. */
  function QueryHit(term: string): Query -> Option<string>
  {
    (q: Query) => if Contains(Lower(q.query), term) then Some(q.query) else None
  }

  /** The role and snippet of a message that matches the term. */
  function MessageHit(term: string): Message -> Option<MessageMatch>
  {
    (m: Message) => if Contains(Lower(m.content), term) then Some(MessageMatch(m.role, Snippet(m.content, term))) else None
  }

  lemma {:induction false} EntityMatchesCollect(es: seq<Entity>, term: string)
    ensures EntityMatches(es, term) == Collect(es, EntityHit(term))
    decreases |es|
  {
    if es != [] {
      EntityMatchesCollect(es[..|es| - 1], term);
    }
  }

  lemma {:induction false} QueryMatchesCollect(qs: seq<Query>, term: string)
    ensures QueryMatches(qs, term) == Collect(qs, QueryHit(term))
    decreases |qs|
  {
    if qs != [] {
      QueryMatchesCollect(qs[..|qs| - 1], term);
    }
  }

  lemma {:induction false} MessageMatchesCollect(ms: seq<Message>, term: string)
    ensures MessageMatches(ms, term) == Collect(ms, MessageHit(term))
    decreases |ms|
  {
    if ms != [] {
      MessageMatchesCollect(ms[..|ms| - 1], term);
    }
  }

  /**
   * The entity matches are the names of the matching entities, in order:
   * `pos` lists exactly the positions of the entities whose lowercased name
   * contains the term, increasing, and match `a` is the name at `pos[a]`.
   */
  lemma EntityMatchesInOrder(es: seq<Entity>, term: string) returns (pos: seq<int>)
    ensures |pos| == |EntityMatches(es, term)|
    ensures forall a :: 0 <= a < |pos| ==>
      && 0 <= pos[a] < |es| && Contains(Lower(es[pos[a]].name), term)
      && EntityMatches(es, term)[a] == es[pos[a]].name
    ensures forall a, b :: 0 <= a < b < |pos| ==> pos[a] < pos[b]
    ensures forall j :: 0 <= j < |es| && Contains(Lower(es[j].name), term) ==> j in pos
  {
    EntityMatchesCollect(es, term);
    pos := CollectInOrder(es, EntityHit(term));
  }

  /** The query matches are the texts of the matching queries, in order. */
  lemma QueryMatchesInOrder(qs: seq<Query>, term: string) returns (pos: seq<int>)
    ensures |pos| == |QueryMatches(qs, term)|
    ensures forall a :: 0 <= a < |pos| ==>
      && 0 <= pos[a] < |qs| && Contains(Lower(qs[pos[a]].query), term)
      && QueryMatches(qs, term)[a] == qs[pos[a]].query
    ensures forall a, b :: 0 <= a < b < |pos| ==> pos[a] < pos[b]
    ensures forall j :: 0 <= j < |qs| && Contains(Lower(qs[j].query), term) ==> j in pos
  {
    QueryMatchesCollect(qs, term);
    pos := CollectInOrder(qs, QueryHit(term));
  }

  /** The message matches are the role and snippet of each matching message, in order. */
  lemma MessageMatchesInOrder(ms: seq<Message>, term: string) returns (pos: seq<int>)
    ensures |pos| == |MessageMatches(ms, term)|
    ensures forall a :: 0 <= a < |pos| ==>
      && 0 <= pos[a] < |ms| && Contains(Lower(ms[pos[a]].content), term)
      && MessageMatches(ms, term)[a] == MessageMatch(ms[pos[a]].role, Snippet(ms[pos[a]].content, term))
    ensures forall a, b :: 0 <= a < b < |pos| ==> pos[a] < pos[b]
    ensures forall j :: 0 <= j < |ms| && Contains(Lower(ms[j].content), term) ==> j in pos
  {
    MessageMatchesCollect(ms, term);
    pos := CollectInOrder(ms, MessageHit(term));
  }

  /** The hit for one stored session, for a lowercased term; None when nothing matches. */
  function SessionHit(id: string, data: Session, term: string): (r: Option<SearchHit>)
    ensures r.Some? <==>
      || (exists i :: 0 <= i < |data.entities| && Contains(Lower(data.entities[i].name), term))
      || (exists i :: 0 <= i < |data.queries| && Contains(Lower(data.queries[i].query), term))
      || (exists i :: 0 <= i < |data.messages| && Contains(Lower(data.messages[i].content), term))
    ensures r.Some? ==> |r.value.messageMatches| <= 3 && r.value.id == id
    ensures r.Some? ==>
      var mm := MessageMatches(data.messages, term);
      && r.value.name == (if data.name.Some? then data.name.value else "Unnamed Session")
      && r.value.entityMatches == EntityMatches(data.entities, term)
      && r.value.queryMatches == QueryMatches(data.queries, term)
      && r.value.messageMatches == mm[..if |mm| < 3 then |mm| else 3]
  {
    var em := EntityMatches(data.entities, term);
    var qm := QueryMatches(data.queries, term);
    var mm := MessageMatches(data.messages, term);
    if em != [] || qm != [] || mm != [] then
      Some(SearchHit(id, data.name.UnwrapOr("Unnamed Session"), em, qm, Take(mm, 3)))
    else None
  }

  /** The hit for the session `id` when its file exists. */
  function HitOf(files: map<string, Session>, term: string, id: string): Option<SearchHit>
  {
    if id in files then SessionHit(id, files[id], term) else None
  }

  /** The values `f` finds for the items of `xs`, in order. */
  function Collect<K, H>(xs: seq<K>, f: K -> Option<H>): seq<H>
    decreases |xs|
  {
    if xs == [] then []
    else
      var found := f(xs[|xs| - 1]);
      Collect(xs[..|xs| - 1], f) + (if found.Some? then [found.value] else [])
  }

  /** Every collected value was found for some item. */
  lemma {:induction false} CollectSound<K, H>(xs: seq<K>, f: K -> Option<H>)
    ensures forall h :: h in Collect(xs, f) ==> exists j :: 0 <= j < |xs| && f(xs[j]) == Some(h)
    decreases |xs|
  {
    if xs != [] {
      var n := |xs|;
      CollectSound(xs[..n - 1], f);
      forall h | h in Collect(xs, f) ensures exists j :: 0 <= j < n && f(xs[j]) == Some(h) {
        if h in Collect(xs[..n - 1], f) {
          var j :| 0 <= j < n - 1 && f(xs[..n - 1][j]) == Some(h);
          assert xs[..n - 1][j] == xs[j];
        } else {
          assert f(xs[n - 1]) == Some(h);
        }
      }
    }
  }

  /** Every value found for an item is collected. */
  lemma {:induction false} CollectComplete<K, H>(xs: seq<K>, f: K -> Option<H>)
    ensures forall j :: 0 <= j < |xs| && f(xs[j]).Some? ==> f(xs[j]).value in Collect(xs, f)
    decreases |xs|
  {
    if xs != [] {
      var n := |xs|;
      CollectComplete(xs[..n - 1], f);
      forall j | 0 <= j < n - 1 && f(xs[j]).Some? ensures f(xs[j]).value in Collect(xs, f) {
        assert xs[..n - 1][j] == xs[j];
      }
    }
  }

  /** Collecting over one more item. */
  lemma CollectStep<K, H>(xs: seq<K>, f: K -> Option<H>, i: int)
    requires 0 <= i < |xs|
    ensures Collect(xs[..i + 1], f) == Collect(xs[..i], f) + (if f(xs[i]).Some? then [f(xs[i]).value] else [])
  {
    assert xs[..i + 1][..i] == xs[..i];
  }

  /**
   * `Collect` keeps the order: `pos` lists, increasing, exactly the positions
   * at which `f` finds a value, and value `a` is the one found at `pos[a]`.
   */
  lemma {:induction false} CollectInOrder<K, H>(xs: seq<K>, f: K -> Option<H>) returns (pos: seq<int>)
    ensures |pos| == |Collect(xs, f)|
    ensures forall a :: 0 <= a < |pos| ==> 0 <= pos[a] < |xs| && f(xs[pos[a]]) == Some(Collect(xs, f)[a])
    ensures forall a, b :: 0 <= a < b < |pos| ==> pos[a] < pos[b]
    ensures forall j :: 0 <= j < |xs| && f(xs[j]).Some? ==> j in pos
    decreases |xs|
  {
    if xs == [] {
      return [];
    }
    var n := |xs|;
    var front := xs[..n - 1];
    var rest := CollectInOrder(front, f);
    var found := f(xs[n - 1]);
    var more := if found.Some? then [n - 1] else [];
    var got := Collect(front, f);
    pos := rest + more;
    assert Collect(xs, f) == got + if found.Some? then [found.value] else [];
    forall a | 0 <= a < |pos| ensures 0 <= pos[a] < n && f(xs[pos[a]]) == Some(Collect(xs, f)[a]) {
      if a < |rest| {
        assert pos[a] == rest[a] && Collect(xs, f)[a] == got[a];
        assert front[rest[a]] == xs[rest[a]];
      } else {
        assert pos[a] == n - 1 && Collect(xs, f)[a] == found.value;
      }
    }
    forall a, b | 0 <= a < b < |pos| ensures pos[a] < pos[b] {
      assert pos[a] == rest[a];
      if b < |rest| {
        assert pos[b] == rest[b];
      }
    }
    forall j | 0 <= j < n && f(xs[j]).Some? ensures j in pos {
      if j < n - 1 {
        assert front[j] == xs[j];
        var a :| 0 <= a < |rest| && rest[a] == j;
        assert pos[a] == j;
      } else {
        assert pos[|rest|] == j;
      }
    }
  }

  /** The hit finder for a term over the stored sessions. */
  function Hits(files: map<string, Session>, term: string): IndexRecord -> Option<SearchHit>
  {
    (rec: IndexRecord) => HitOf(files, term, rec.id)
  }

  /** The hits over the index, in index order, for sessions whose file exists. */
  function SearchAll(index: seq<IndexRecord>, files: map<string, Session>, term: string): seq<SearchHit>
  {
    Collect(index, Hits(files, term))
  }

  /** Every hit is for a session of the index whose file exists. */
  lemma SearchAllSound(index: seq<IndexRecord>, files: map<string, Session>, term: string)
    ensures forall h :: h in SearchAll(index, files, term) ==>
      h.id in files && (exists j :: 0 <= j < |index| && index[j].id == h.id)
      && SessionHit(h.id, files[h.id], term) == Some(h)
  {
    var f := Hits(files, term);
    CollectSound(index, f);
    forall h | h in SearchAll(index, files, term)
      ensures h.id in files && (exists j :: 0 <= j < |index| && index[j].id == h.id)
        && SessionHit(h.id, files[h.id], term) == Some(h)
    {
      var j :| 0 <= j < |index| && f(index[j]) == Some(h);
      assert HitOf(files, term, index[j].id) == Some(h);
    }
  }

  /** Every session of the index whose file has a match is among the hits. */
  lemma SearchAllComplete(index: seq<IndexRecord>, files: map<string, Session>, term: string)
    ensures forall j :: 0 <= j < |index| && index[j].id in files && SessionHit(index[j].id, files[index[j].id], term).Some? ==>
      SessionHit(index[j].id, files[index[j].id], term).value in SearchAll(index, files, term)
  {
    var f := Hits(files, term);
    CollectComplete(index, f);
    forall j | 0 <= j < |index| && index[j].id in files && SessionHit(index[j].id, files[index[j].id], term).Some?
      ensures SessionHit(index[j].id, files[index[j].id], term).value in SearchAll(index, files, term)
    {
      assert f(index[j]) == SessionHit(index[j].id, files[index[j].id], term);
    }
  }

  // ---------------------------------------------------------------- the manager

  class SessionManager {
    /** Session ids whose file can be written. */
    const writable: string -> bool
    /** Session ids whose file `os.remove` can delete. */
    const removable: string -> bool
    /** `sessions_index["sessions"]` */
    var index: seq<IndexRecord>
    /** `current_session_id` */
    var currentId: Option<string>
    /** `current_session` */
    var current: Session
    /** The session files, by session id. */
    var files: map<string, Session>

    /** A session is active when the current id is set and not empty. */
    predicate Active()
      reads this`currentId
    {
      currentId.Some? && currentId.value != ""
    }

    /** `__init__`: the index as loaded (empty when missing or unreadable) and no active session. */
    constructor(loadedIndex: Option<seq<IndexRecord>>, stored: map<string, Session>,
                writable: string -> bool, removable: string -> bool)
      ensures index == (if loadedIndex.Some? then loadedIndex.value else [])
      ensures currentId == None && current == NO_SESSION && files == stored
      ensures this.writable == writable && this.removable == removable
    {
      this.writable := writable;
      this.removable := removable;
      index := if loadedIndex.Some? then loadedIndex.value else [];
      currentId := None;
      current := NO_SESSION;
      files := stored;
    }

    /** The update loop of `_save_current_session` over the index. */
    method SyncIndex(id: string, now: int)
      modifies this`index
      ensures index == SyncedIndex(old(index), id, current, now)
    {
      var i := 0;
      while i < |index|
        invariant 0 <= i <= |index|
        invariant index == old(index)
        invariant forall j :: 0 <= j < i ==> index[j].id != id
      {
        if index[i].id == id {
          assert FindId(index, id) == i;
          index := index[i := Synced(index[i], current, now)];
          return;
        }
        i := i + 1;
      }
      assert FindId(index, id) == -1;
    }

    /**
     * `_save_current_session`: writes the current session to its file and then
     * syncs the index; nothing happens without an active session, and a write
     * failure is logged with the index left as it is.
     */
    method SaveCurrentSession(now: int)
      modifies this`files, this`index
      ensures !Active() || !writable(currentId.value) ==> files == old(files) && index == old(index)
      ensures Active() && writable(currentId.value) ==>
        files == old(files)[currentId.value := current] && index == SyncedIndex(old(index), currentId.value, current, now)
    {
      if !Active() {
        return;
      }
      var id := currentId.value;
      if !writable(id) {
        return;
      }
      files := files[id := current];
      SyncIndex(id, now);
    }

    /**
     * `create_session`: the id is `session_<now>`; an absent or empty name
     * becomes `Session <stamp>`. Exactly one record with zero counts and
     * `start_time == last_updated` is appended, and the new session becomes the
     * current one with empty lists.
     */
    method CreateSession(name: Option<string>, now: int, stamp: string) returns (id: string)
      modifies this`index, this`currentId, this`current, this`files
      ensures id == "session_" + IntToString(now)
      ensures var nm := if name.None? || name.value == "" then "Session " + stamp else name.value;
        && currentId == Some(id) && current == Session(Some(id), Some(nm), Some(now), [], [], [])
        && |index| == |old(index)| + 1
        && index[|old(index)|] == IndexRecord(id, nm, now, now, 0, 0, 0)
        && index == (if writable(id) then SyncedIndex(old(index) + [IndexRecord(id, nm, now, now, 0, 0, 0)], id, current, now)
                     else old(index) + [IndexRecord(id, nm, now, now, 0, 0, 0)])
      ensures files == if writable(id) then old(files)[id := current] else old(files)
    {
      id := "session_" + IntToString(now);
      var nm := if name.None? || name.value == "" then "Session " + stamp else name.value;
      var record := IndexRecord(id, nm, now, now, 0, 0, 0);
      index := index + [record];
      currentId := Some(id);
      current := Session(Some(id), Some(nm), Some(now), [], [], []);
      ghost var appended := index;
      SaveCurrentSession(now);
      SyncedIndexSpec(appended, id, current, now);
      assert FindId(appended, id) != |old(index)| ==> index[|old(index)|] == appended[|old(index)|];
    }

    /** `load_session`: a missing file raises; otherwise the stored session becomes the current one. */
    method LoadSession(id: string) returns (r: Result<Session, string>)
      modifies this`currentId, this`current
      ensures id !in files ==> r == Failure("Session not found: " + id) && currentId == old(currentId) && current == old(current)
      ensures id in files ==> r == Success(files[id]) && currentId == Some(id) && current == files[id]
    {
      if id !in files {
        return Failure("Session not found: " + id);
      }
      currentId := Some(id);
      current := files[id];
      return Success(current);
    }

    /** `add_entity`: appends one entity to the current session and saves; no-op without a session. */
    method AddEntity(kind: string, name: string, metadata: Option<map<string, Json>>, now: int)
      modifies this`current, this`files, this`index
      ensures !Active() ==> current == old(current) && files == old(files) && index == old(index)
      ensures Active() ==>
        && current == old(current).(entities := old(current).entities + [Entity(kind, name, now, OrEmpty(metadata))])
        && files == (if writable(currentId.value) then old(files)[currentId.value := current] else old(files))
        && index == (if writable(currentId.value) then SyncedIndex(old(index), currentId.value, current, now) else old(index))
    {
      if !Active() {
        return;
      }
      current := current.(entities := current.entities + [Entity(kind, name, now, OrEmpty(metadata))]);
      SaveCurrentSession(now);
    }

    /** `add_query`: appends one query record to the current session and saves; no-op without a session. */
    method AddQuery(query: string, tool: string, parameters: Option<map<string, Json>>, results: Option<seq<Json>>, now: int)
      modifies this`current, this`files, this`index
      ensures !Active() ==> current == old(current) && files == old(files) && index == old(index)
      ensures Active() ==>
        && current == old(current).(queries := old(current).queries
             + [Query(query, tool, now, OrEmpty(parameters), if results.Some? then results.value else [])])
        && files == (if writable(currentId.value) then old(files)[currentId.value := current] else old(files))
        && index == (if writable(currentId.value) then SyncedIndex(old(index), currentId.value, current, now) else old(index))
    {
      if !Active() {
        return;
      }
      var record := Query(query, tool, now, OrEmpty(parameters), if results.Some? then results.value else []);
      current := current.(queries := current.queries + [record]);
      SaveCurrentSession(now);
    }

    /** `add_message`: appends one message to the current session and saves; no-op without a session. */
    method AddMessage(role: string, content: string, metadata: Option<map<string, Json>>, now: int)
      modifies this`current, this`files, this`index
      ensures !Active() ==> current == old(current) && files == old(files) && index == old(index)
      ensures Active() ==>
        && current == old(current).(messages := old(current).messages + [Message(role, content, now, OrEmpty(metadata))])
        && files == (if writable(currentId.value) then old(files)[currentId.value := current] else old(files))
        && index == (if writable(currentId.value) then SyncedIndex(old(index), currentId.value, current, now) else old(index))
    {
      if !Active() {
        return;
      }
      current := current.(messages := current.messages + [Message(role, content, now, OrEmpty(metadata))]);
      SaveCurrentSession(now);
    }

    /** `get_session_history` */
    function History(): (r: seq<Message>)
      reads this
      ensures !Active() ==> r == []
      ensures Active() ==> r == current.messages
    {
      if Active() then current.messages else []
    }

    /** `get_session_entities` */
    function Entities(): (r: seq<Entity>)
      reads this
      ensures !Active() ==> r == []
      ensures Active() ==> r == current.entities
    {
      if Active() then current.entities else []
    }

    /** `get_session_queries` */
    function Queries(): (r: seq<Query>)
      reads this
      ensures !Active() ==> r == []
      ensures Active() ==> r == current.queries
    {
      if Active() then current.queries else []
    }

    /**
     * `delete_session`: false when the session's file does not exist or
     * `os.remove` fails on it; otherwise the file and every index record with
     * the id are removed, the other records keep their order, and the current
     * session is reset if it was the one deleted.
     */
    method DeleteSession(id: string) returns (ok: bool)
      modifies this`files, this`index, this`currentId, this`current
      ensures ok <==> id in old(files) && removable(id)
      ensures !ok ==> files == old(files) && index == old(index) && currentId == old(currentId) && current == old(current)
      ensures ok ==> files == old(files) - {id} && index == WithoutId(old(index), id)
      ensures ok ==> forall j :: 0 <= j < |index| ==> index[j].id != id
      ensures ok && old(currentId) == Some(id) ==> currentId == None && current == NO_SESSION
      ensures ok && old(currentId) != Some(id) ==> currentId == old(currentId) && current == old(current)
    {
      if id !in files || !removable(id) {
        return false;
      }
      files := files - {id};
      index := WithoutId(index, id);
      if currentId == Some(id) {
        currentId := None;
        current := NO_SESSION;
      }
      assert forall j :: 0 <= j < |index| ==> index[j] in index;
      return true;
    }

    /**
     * `summarize_session`: summarises the named session, or the current one
     * when none is named; `Success(None)` stands for the empty summary `{}`
     * returned when there is no target or its file is missing, and a stored
     * record without a start time raises.
     */
    method SummarizeSession(sessionId: Option<string>) returns (r: Result<Option<Summary>, string>)
      ensures var target := OrElse(sessionId, currentId);
        && (target.None? || target.value == "" ==> r == Success(None))
        && (target.Some? && target.value != "" && target != currentId && target.value !in files ==> r == Success(None))
        && (r.Success? && r.value.Some? ==>
              var data := if target == currentId then current else files[target.value];
              data.startTime.Some? && r.value.value == Summarize(target.value, data))
        && (r.Failure? ==> target.Some? && target.value != "")
        && (target.Some? && target.value != "" && (target == currentId || target.value in files) ==>
              var data := if target == currentId then current else files[target.value];
              && (r.Failure? <==> data.startTime.None?)
              && (data.startTime.Some? ==> r == Success(Some(Summarize(target.value, data)))))
    {
      var target := OrElse(sessionId, currentId);
      if target.None? || target.value == "" {
        return Success(None);
      }
      var data := current;
      if target != currentId {
        if target.value !in files {
          return Success(None);
        }
        data := files[target.value];
      }
      if data.startTime.None? {
        return Failure("start_time is not a timestamp");
      }
      var entityTypes := CountBy(EntityKinds(data.entities));
      var toolUsage := CountBy(QueryTools(data.queries));
      var messageRoles := CountBy(MessageRoles(data.messages));
      var lastQueries := if data.queries != [] then TakeLast(QueryStrings(data.queries), 5) else [];
      var summary := Summary(target.value, data.name.UnwrapOr("Unnamed Session"), data.startTime.value,
        Duration(data.messages, data.startTime.value),
        |data.entities|, entityTypes, |data.queries|, toolUsage, |data.messages|, messageRoles,
        EntityNames(data.entities), lastQueries);
      return Success(Some(summary));
    }

    /** `search_sessions`: the hits, in index order, for the lowercased term. */
    method SearchSessions(searchTerm: string) returns (results: seq<SearchHit>)
      ensures results == SearchAll(index, files, Lower(searchTerm))
    {
      var term := Lower(searchTerm);
      results := [];
      var i := 0;
      while i < |index|
        invariant 0 <= i <= |index|
        invariant results == SearchAll(index[..i], files, term)
      {
        CollectStep(index, Hits(files, term), i);
        assert Hits(files, term)(index[i]) == HitOf(files, term, index[i].id);
        var id := index[i].id;
        if id in files {
          var hit := SessionHit(id, files[id], term);
          if hit.Some? {
            results := results + [hit.value];
          }
        }
        i := i + 1;
      }
      assert index[..i] == index;
    }
  }
}
