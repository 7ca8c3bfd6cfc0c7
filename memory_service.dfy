/** The structured memory tables of backend/app/services/memory_manager.py: preferences,
    facts and relations are maps keyed by the tuples their lookups query, and tasks are rows
    in insertion order. The clock is an integer `now`; uuid4 task ids are serial numbers
    drawn from a counter, which keeps them unique as uuid4 does. */
module MemoryService {
  import opened Wrappers
  import Json

  /** `max(0, min(100, progress))` */
  function ClampProgress(progress: int): (r: int)
    ensures 0 <= r <= 100
    ensures 0 <= progress <= 100 ==> r == progress
    ensures progress < 0 ==> r == 0
    ensures progress > 100 ==> r == 100
  {
    if progress < 0 then 0 else if progress > 100 then 100 else progress
  }

  function Max(a: int, b: int): int {
    if a >= b then a else b
  }

  /** `if extra_metadata:` replaces the stored metadata only with a truthy value. */
  function MergeMetadata(stored: Json.Value, given: Json.Value): Json.Value {
    if Json.Truthy(given) then given else stored
  }

  // ---------------------------------------------------------------------------
  // Preferences, keyed by (user_id, category, preference_key)
  // ---------------------------------------------------------------------------

  type PrefKey = (string, string, string)

  datatype Preference = Preference(value: string, confidence: int, source: string, metadata: Json.Value,
                                   updatedAt: int, lastConfirmedAt: int)

  /** `add_preference` on the table: a new key gets a new row; an existing row is rewritten
      only when the new confidence is at least the stored one. */
  function PutPreference(prefs: map<PrefKey, Preference>, k: PrefKey, value: string, confidence: int, source: string,
                         metadata: Json.Value, now: int): (r: map<PrefKey, Preference>)
    ensures r.Keys == prefs.Keys + {k}
    ensures forall other :: other in prefs && other != k ==> r[other] == prefs[other]
  {
    if k !in prefs then prefs[k := Preference(value, confidence, source, metadata, now, now)]
    else if confidence >= prefs[k].confidence then
      prefs[k := prefs[k].(value := value, confidence := confidence, source := source,
                           metadata := MergeMetadata(prefs[k].metadata, metadata),
                           updatedAt := now, lastConfirmedAt := now)]
    else prefs
  }

  /** The confidence gate: a weaker preference leaves the table as it was; an equal or
      stronger one takes over value, confidence and source; a stored confidence never
      drops. */
  lemma PreferenceGate(prefs: map<PrefKey, Preference>, k: PrefKey, value: string, confidence: int, source: string,
                       metadata: Json.Value, now: int)
    ensures var r := PutPreference(prefs, k, value, confidence, source, metadata, now);
      (k in prefs && confidence < prefs[k].confidence ==> r == prefs) &&
      (k !in prefs || confidence >= prefs[k].confidence ==>
        r[k].value == value && r[k].confidence == confidence && r[k].source == source && r[k].lastConfirmedAt == now) &&
      (k in prefs ==> r[k].confidence == Max(confidence, prefs[k].confidence))
  {
  }

  /** Once a preference is stored, a later, less confident one for the same key is
      ignored. */
  lemma PreferenceWeakerIgnored(prefs: map<PrefKey, Preference>, k: PrefKey, v1: string, c1: int, s1: string, m1: Json.Value,
                                v2: string, c2: int, s2: string, m2: Json.Value, now1: int, now2: int)
    requires c2 < c1
    ensures var first := PutPreference(prefs, k, v1, c1, s1, m1, now1);
      PutPreference(first, k, v2, c2, s2, m2, now2) == first
  {
    var first := PutPreference(prefs, k, v1, c1, s1, m1, now1);
    assert first[k].confidence >= c1;
  }

  // ---------------------------------------------------------------------------
  // Facts, keyed by (user_id, fact_type, subject)
  // ---------------------------------------------------------------------------

  type FactKey = (string, string, string)

  datatype Fact = Fact(value: string, confidence: int, source: string, metadata: Json.Value, updatedAt: int, verifiedAt: int)

  /** `add_fact` on the table: an existing fact is rewritten when the confidence is at least
      the stored one or the value differs, keeping the larger confidence. */
  function PutFact(facts: map<FactKey, Fact>, k: FactKey, value: string, confidence: int, source: string,
                   metadata: Json.Value, now: int): (r: map<FactKey, Fact>)
    ensures r.Keys == facts.Keys + {k}
    ensures forall other :: other in facts && other != k ==> r[other] == facts[other]
  {
    if k !in facts then facts[k := Fact(value, confidence, source, metadata, now, now)]
    else if confidence >= facts[k].confidence || value != facts[k].value then
      facts[k := facts[k].(value := value, confidence := Max(confidence, facts[k].confidence), source := source,
                           metadata := MergeMetadata(facts[k].metadata, metadata),
                           updatedAt := now, verifiedAt := now)]
    else facts
  }

  /** After `add_fact` the stored value is always the one just given and the stored
      confidence is the larger of the two, so it never decreases; a same-valued, weaker fact
      changes nothing. */
  lemma FactLatestValue(facts: map<FactKey, Fact>, k: FactKey, value: string, confidence: int, source: string,
                        metadata: Json.Value, now: int)
    ensures var r := PutFact(facts, k, value, confidence, source, metadata, now);
      r[k].value == value &&
      r[k].confidence == (if k in facts then Max(confidence, facts[k].confidence) else confidence) &&
      (k in facts && confidence < facts[k].confidence && value == facts[k].value ==> r == facts)
  {
  }

  // ---------------------------------------------------------------------------
  // Relations, keyed by (user_id, subject_entity, relation_type, object_entity)
  // ---------------------------------------------------------------------------

  type RelKey = (string, string, string, string)

  datatype Relation = Relation(subjectType: string, objectType: string, confidence: int, bidirectional: int,
                               metadata: Json.Value, updatedAt: int)

  /** `add_relation` as written: the new-row branch names an undefined `metadata`, so every
      new relation raises `NameError` (after which the session is rolled back). */
  function AddRelationAsWritten(rels: map<RelKey, Relation>, k: RelKey, subjectType: string, objectType: string,
                                confidence: int, bidirectional: bool, metadata: Json.Value, now: int): (r: Result<map<RelKey, Relation>, string>)
    ensures r.Ok? <==> k in rels
    ensures r.Ok? ==> r.value.Keys == rels.Keys && r.value == PutRelation(rels, k, subjectType, objectType, confidence, bidirectional, metadata, now)
  {
    if k in rels then Ok(PutRelation(rels, k, subjectType, objectType, confidence, bidirectional, metadata, now))
    else Err("NameError")
  }

  /** A relation that is not yet stored can never be added through the code as written. */
  lemma NewRelationRaises(rels: map<RelKey, Relation>, k: RelKey, subjectType: string, objectType: string,
                          confidence: int, bidirectional: bool, metadata: Json.Value, now: int)
    requires k !in rels
    ensures AddRelationAsWritten(rels, k, subjectType, objectType, confidence, bidirectional, metadata, now) == Err("NameError")
  {
  }

  /** `add_relation` with the new row storing `extra_metadata`: an existing relation only
      gains confidence, and only from a strictly higher one. */
  function PutRelation(rels: map<RelKey, Relation>, k: RelKey, subjectType: string, objectType: string,
                       confidence: int, bidirectional: bool, metadata: Json.Value, now: int): (r: map<RelKey, Relation>)
    ensures r.Keys == rels.Keys + {k}
    ensures forall other :: other in rels && other != k ==> r[other] == rels[other]
  {
    if k !in rels then rels[k := Relation(subjectType, objectType, confidence, if bidirectional then 1 else 0, metadata, now)]
    else if confidence > rels[k].confidence then
      rels[k := rels[k].(confidence := confidence, updatedAt := now, metadata := MergeMetadata(rels[k].metadata, metadata))]
    else rels
  }

  /** A new relation is stored with the given fields; an existing one keeps its types and
      direction, changes only on a strictly higher confidence, and then takes that
      confidence. */
  lemma RelationRules(rels: map<RelKey, Relation>, k: RelKey, subjectType: string, objectType: string,
                      confidence: int, bidirectional: bool, metadata: Json.Value, now: int)
    ensures var r := PutRelation(rels, k, subjectType, objectType, confidence, bidirectional, metadata, now);
      (k !in rels ==> r[k] == Relation(subjectType, objectType, confidence, if bidirectional then 1 else 0, metadata, now)) &&
      (k in rels ==>
        r[k].confidence == Max(confidence, rels[k].confidence) &&
        r[k].subjectType == rels[k].subjectType && r[k].objectType == rels[k].objectType &&
        r[k].bidirectional == rels[k].bidirectional &&
        (confidence <= rels[k].confidence ==> r == rels))
  {
  }

  // ---------------------------------------------------------------------------
  // Tasks
  // ---------------------------------------------------------------------------

  datatype Task = Task(id: nat, userId: string, sessionId: Option<string>, kind: string, title: string,
                       description: Option<string>, status: string, progress: int, priority: string,
                       createdAt: int, updatedAt: int, completedAt: Option<int>)

  /** The arguments of `add_task` that end up in the row. */
  datatype TaskRequest = TaskRequest(userId: string, sessionId: Option<string>, kind: string, title: string,
                                     description: Option<string>, status: string, progress: int, priority: string)

  /** Ids grow with insertion order and stay below the next id to hand out. */
  predicate IdsOrdered(tasks: seq<Task>, nextId: nat) {
    (forall i :: 0 <= i < |tasks| ==> tasks[i].id < nextId) &&
    (forall i, j :: 0 <= i < j < |tasks| ==> tasks[i].id < tasks[j].id)
  }

  predicate SameTitle(t: Task, userId: string, title: string) {
    t.userId == userId && t.title == title
  }

  /** The number of the user's tasks with this title. */
  function CountSimilar(tasks: seq<Task>, userId: string, title: string): (n: nat)
    ensures n == 0 <==> forall i :: 0 <= i < |tasks| ==> !SameTitle(tasks[i], userId, title)
  {
    if tasks == [] then 0
    else CountSimilar(tasks[..|tasks| - 1], userId, title) + (if SameTitle(tasks[|tasks| - 1], userId, title) then 1 else 0)
  }

  /** `_find_similar_task` as written: `scalar_one_or_none()` raises `MultipleResultsFound`
      as soon as the user has two tasks with the title. */
  function SimilarAsWritten(tasks: seq<Task>, userId: string, title: string): (r: Result<Option<Task>, string>)
    ensures r.Err? <==> CountSimilar(tasks, userId, title) >= 2
    ensures r.Ok? ==> r.value == Similar(tasks, userId, title)
  {
    var n := CountSimilar(tasks, userId, title);
    if n == 0 then Ok(None)
    else if n == 1 then Ok(Similar(tasks, userId, title))
    else Err("MultipleResultsFound")
  }

  /** A completed task followed by a new one with the same title makes every later lookup
      for that title raise. */
  lemma SimilarRaisesOnSecondTask(done: Task, active: Task)
    requires done.userId == active.userId && done.title == active.title
    ensures SimilarAsWritten([done, active], done.userId, done.title) == Err("MultipleResultsFound")
  {
    assert [done, active][..1] == [done];
    assert [done][..0] == [];
    assert CountSimilar([done], done.userId, done.title) == 1;
    assert CountSimilar([done, active], done.userId, done.title) == 2;
  }

  /** `_find_similar_task` taking the newest match, as its `created_at desc` ordering
      intends: the last of the user's tasks with the title. */
  function Similar(tasks: seq<Task>, userId: string, title: string): (r: Option<Task>)
    ensures r.None? <==> forall i :: 0 <= i < |tasks| ==> !SameTitle(tasks[i], userId, title)
    ensures r.Some? ==> exists i :: (0 <= i < |tasks| && tasks[i] == r.value && SameTitle(r.value, userId, title) &&
      forall j :: i < j < |tasks| ==> !SameTitle(tasks[j], userId, title))
  {
    if tasks == [] then None
    else if SameTitle(tasks[|tasks| - 1], userId, title) then Some(tasks[|tasks| - 1])
    else
      var r := Similar(tasks[..|tasks| - 1], userId, title);
      assert forall i :: 0 <= i < |tasks| - 1 ==> tasks[..|tasks| - 1][i] == tasks[i];
      r
  }

  /** `add_task`: the newest same-titled task is returned when it is active; otherwise a new
      row with clamped progress is appended. */
  function AddTaskTo(tasks: seq<Task>, nextId: nat, req: TaskRequest, now: int): (r: (seq<Task>, Task))
    ensures var existing := Similar(tasks, req.userId, req.title);
      (existing.Some? && existing.value.status == "active" ==> r.0 == tasks && r.1 == existing.value) &&
      (!(existing.Some? && existing.value.status == "active") ==>
        r.0 == tasks + [r.1] && r.1.id == nextId && 0 <= r.1.progress <= 100 &&
        r.1.title == req.title && r.1.userId == req.userId && r.1.status == req.status &&
        (0 <= req.progress <= 100 ==> r.1.progress == req.progress))
  {
    var existing := Similar(tasks, req.userId, req.title);
    if existing.Some? && existing.value.status == "active" then (tasks, existing.value)
    else
      var t := Task(nextId, req.userId, req.sessionId, req.kind, req.title, req.description, req.status,
                    ClampProgress(req.progress), req.priority, now, now, None);
      (tasks + [t], t)
  }

  /** Adding a task keeps the ids ordered, advancing the counter exactly when a row is
      appended. */
  lemma AddTaskKeepsIds(tasks: seq<Task>, nextId: nat, req: TaskRequest, now: int)
    requires IdsOrdered(tasks, nextId)
    ensures var r := AddTaskTo(tasks, nextId, req, now);
      IdsOrdered(r.0, nextId + |r.0| - |tasks|) && |tasks| <= |r.0| <= |tasks| + 1
  {
  }

  /** The fields `update_task` rewrites: a non-empty status (with "completed" also stamping
      `completed_at` and setting progress 100), then an explicit progress, clamped, then a
      non-empty description; `updated_at` always. */
  function UpdatedTask(t: Task, status: Option<string>, progress: Option<int>, description: Option<string>, now: int): Task {
    var t1 := if status.Some? && status.value != [] then
        (if status.value == "completed" then t.(status := status.value, completedAt := Some(now), progress := 100)
         else t.(status := status.value))
      else t;
    var t2 := if progress.Some? then t1.(progress := ClampProgress(progress.value)) else t1;
    var t3 := if description.Some? && description.value != [] then t2.(description := description) else t2;
    t3.(updatedAt := now)
  }

  /** An explicit progress wins over the 100 of "completed", and either way a progress
      inside [0, 100] stays inside; empty status and description are ignored, and the
      identity of the memory task never changes. */
  lemma UpdateTaskRules(t: Task, status: Option<string>, progress: Option<int>, description: Option<string>, now: int)
    ensures var r := UpdatedTask(t, status, progress, description, now);
      r.id == t.id && r.userId == t.userId && r.title == t.title && r.kind == t.kind && r.createdAt == t.createdAt &&
      r.updatedAt == now &&
      (progress.Some? ==> r.progress == ClampProgress(progress.value)) &&
      (progress.None? && status == Some("completed") ==> r.progress == 100) &&
      (progress.None? && status != Some("completed") ==> r.progress == t.progress) &&
      (0 <= t.progress <= 100 ==> 0 <= r.progress <= 100) &&
      r.status == (if status.Some? && status.value != [] then status.value else t.status) &&
      r.description == (if description.Some? && description.value != [] then description else t.description) &&
      (status == Some("completed") ==> r.completedAt == Some(now))
  {
  }

  /** The position of the memory task with this id, if it belongs to the user. */
  function FindTask(tasks: seq<Task>, taskId: nat, userId: string): (r: Option<nat>)
    ensures r.Some? ==> r.value < |tasks| && tasks[r.value].id == taskId && tasks[r.value].userId == userId
    ensures r.None? ==> forall i :: 0 <= i < |tasks| ==> !(tasks[i].id == taskId && tasks[i].userId == userId)
  {
    if tasks == [] then None
    else if tasks[0].id == taskId && tasks[0].userId == userId then Some(0)
    else
      var r := FindTask(tasks[1..], taskId, userId);
      if r.Some? then Some(r.value + 1) else None
  }

  // ---------------------------------------------------------------------------
  // Batch insertion of extracted memories
  // ---------------------------------------------------------------------------

  /** A field that the extraction may have left out is `None`; `.get(field, default)` then
      uses the default. */
  datatype PrefItem = PrefItem(category: Option<string>, key: Option<string>, value: Option<string>,
                               confidence: Option<int>, source: Option<string>)
  datatype FactItem = FactItem(kind: Option<string>, subject: Option<string>, value: Option<string>,
                               confidence: Option<int>, source: Option<string>)
  datatype TaskItem = TaskItem(kind: Option<string>, title: Option<string>, description: Option<string>,
                               status: Option<string>, priority: Option<string>)
  datatype RelationItem = RelationItem(subject: Option<string>, subjectType: Option<string>, relation: Option<string>,
                                       objectEntity: Option<string>, objectType: Option<string>, confidence: Option<int>)

  /** The four lists of an extraction; a missing list is empty. */
  datatype Extracted = Extracted(preferences: seq<PrefItem>, facts: seq<FactItem>, tasks: seq<TaskItem>,
                                 relations: seq<RelationItem>)

  datatype Counts = Counts(preferences: nat, facts: nat, tasks: nat, relations: nat)

  /** `{"session_id": session_id} if session_id else None` */
  function SessionMetadata(sessionId: Option<string>): Json.Value {
    if sessionId.Some? && sessionId.value != [] then Json.Dict([("session_id", Json.Str(sessionId.value))]) else Json.Null
  }

  function PutPrefItem(prefs: map<PrefKey, Preference>, p: PrefItem, userId: string, metadata: Json.Value, now: int): map<PrefKey, Preference> {
    PutPreference(prefs, (userId, p.category.GetOr("general"), p.key.GetOr("unknown")), p.value.GetOr(""),
                  p.confidence.GetOr(5), p.source.GetOr("explicit"), metadata, now)
  }

  function PutFactItem(facts: map<FactKey, Fact>, f: FactItem, userId: string, metadata: Json.Value, now: int): map<FactKey, Fact> {
    PutFact(facts, (userId, f.kind.GetOr("general"), f.subject.GetOr("unknown")), f.value.GetOr(""),
            f.confidence.GetOr(5), f.source.GetOr("direct_statement"), metadata, now)
  }

  function PutRelationItem(rels: map<RelKey, Relation>, x: RelationItem, userId: string, metadata: Json.Value, now: int): map<RelKey, Relation> {
    PutRelation(rels, (userId, x.subject.GetOr(""), x.relation.GetOr("related_to"), x.objectEntity.GetOr("")),
                x.subjectType.GetOr("entity"), x.objectType.GetOr("entity"), x.confidence.GetOr(5), false, metadata, now)
  }

  function TaskRequestOf(x: TaskItem, userId: string, sessionId: Option<string>): TaskRequest {
    TaskRequest(userId, sessionId, x.kind.GetOr("todo"), x.title.GetOr(""), x.description, x.status.GetOr("active"),
                0, x.priority.GetOr("medium"))
  }

  function FoldPreferences(prefs: map<PrefKey, Preference>, items: seq<PrefItem>, userId: string, metadata: Json.Value, now: int): map<PrefKey, Preference> {
    if items == [] then prefs
    else PutPrefItem(FoldPreferences(prefs, items[..|items| - 1], userId, metadata, now), items[|items| - 1], userId, metadata, now)
  }

  function FoldFacts(facts: map<FactKey, Fact>, items: seq<FactItem>, userId: string, metadata: Json.Value, now: int): map<FactKey, Fact> {
    if items == [] then facts
    else PutFactItem(FoldFacts(facts, items[..|items| - 1], userId, metadata, now), items[|items| - 1], userId, metadata, now)
  }

  function FoldRelations(rels: map<RelKey, Relation>, items: seq<RelationItem>, userId: string, metadata: Json.Value, now: int): map<RelKey, Relation> {
    if items == [] then rels
    else PutRelationItem(FoldRelations(rels, items[..|items| - 1], userId, metadata, now), items[|items| - 1], userId, metadata, now)
  }

  /** The memory task rows and next id after adding `items` in order. */
  function FoldTasks(tasks: seq<Task>, nextId: nat, items: seq<TaskItem>, userId: string, sessionId: Option<string>, now: int): (seq<Task>, nat) {
    if items == [] then (tasks, nextId)
    else
      var before := FoldTasks(tasks, nextId, items[..|items| - 1], userId, sessionId, now);
      var r := AddTaskTo(before.0, before.1, TaskRequestOf(items[|items| - 1], userId, sessionId), now);
      (r.0, before.1 + |r.0| - |before.0|)
  }

  /** One more item of the batch is one more `add_task`. */
  lemma FoldTasksStep(tasks: seq<Task>, nextId: nat, items: seq<TaskItem>, i: nat, userId: string, sessionId: Option<string>, now: int)
    requires i < |items|
    ensures var before := FoldTasks(tasks, nextId, items[..i], userId, sessionId, now);
      var r := AddTaskTo(before.0, before.1, TaskRequestOf(items[i], userId, sessionId), now);
      FoldTasks(tasks, nextId, items[..i + 1], userId, sessionId, now) == (r.0, before.1 + |r.0| - |before.0|)
  {
    assert items[..i + 1][..i] == items[..i];
  }

  /** Every key the batch touches is in the table afterwards, and no stored key is lost. */
  lemma {:induction false} FoldPreferencesKeys(prefs: map<PrefKey, Preference>, items: seq<PrefItem>, userId: string, metadata: Json.Value, now: int)
    ensures prefs.Keys <= FoldPreferences(prefs, items, userId, metadata, now).Keys
    ensures forall i :: 0 <= i < |items| ==>
      (userId, items[i].category.GetOr("general"), items[i].key.GetOr("unknown")) in FoldPreferences(prefs, items, userId, metadata, now)
  {
    if items != [] {
      var init := items[..|items| - 1];
      FoldPreferencesKeys(prefs, init, userId, metadata, now);
      assert forall i :: 0 <= i < |init| ==> init[i] == items[i];
    }
  }

  /** A batch of tasks keeps the ids ordered and never removes a row. */
  lemma {:induction false} FoldTasksKeepsIds(tasks: seq<Task>, nextId: nat, items: seq<TaskItem>, userId: string, sessionId: Option<string>, now: int)
    requires IdsOrdered(tasks, nextId)
    ensures var r := FoldTasks(tasks, nextId, items, userId, sessionId, now);
      IdsOrdered(r.0, r.1) && |tasks| <= |r.0| <= |tasks| + |items| && r.0[..|tasks|] == tasks
  {
    if items != [] {
      var init := items[..|items| - 1];
      FoldTasksKeepsIds(tasks, nextId, init, userId, sessionId, now);
      var before := FoldTasks(tasks, nextId, init, userId, sessionId, now);
      AddTaskKeepsIds(before.0, before.1, TaskRequestOf(items[|items| - 1], userId, sessionId), now);
      var r := AddTaskTo(before.0, before.1, TaskRequestOf(items[|items| - 1], userId, sessionId), now);
      assert r.0[..|before.0|] == before.0;
      assert r.0[..|tasks|] == before.0[..|tasks|];
    }
  }

  // ---------------------------------------------------------------------------
  // The manager
  // ---------------------------------------------------------------------------

  /** `MemoryManager` over its four tables. */
  class MemoryManager {
    var preferences: map<PrefKey, Preference>
    var facts: map<FactKey, Fact>
    var relations: map<RelKey, Relation>
    var tasks: seq<Task>
    var nextId: nat

    ghost predicate Valid()
      reads this
    {
      IdsOrdered(tasks, nextId)
    }

    constructor()
      ensures Valid()
      ensures preferences == map[] && facts == map[] && relations == map[] && tasks == [] && nextId == 0
    {
      preferences := map[];
      facts := map[];
      relations := map[];
      tasks := [];
      nextId := 0;
    }

    /** `add_preference`: returns the row now stored under the key. */
    method AddPreference(userId: string, category: string, key: string, value: string, confidence: int, source: string,
                         metadata: Json.Value, now: int) returns (row: Preference)
      modifies this
      ensures preferences == PutPreference(old(preferences), (userId, category, key), value, confidence, source, metadata, now)
      ensures row == preferences[(userId, category, key)]
      ensures facts == old(facts) && relations == old(relations) && tasks == old(tasks) && nextId == old(nextId)
    {
      var k := (userId, category, key);
      if k in preferences {
        var existing := preferences[k];
        if confidence >= existing.confidence {
          var meta := if Json.Truthy(metadata) then metadata else existing.metadata;
          row := existing.(value := value, confidence := confidence, source := source, metadata := meta,
                           updatedAt := now, lastConfirmedAt := now);
          preferences := preferences[k := row];
        } else {
          row := existing;
        }
      } else {
        row := Preference(value, confidence, source, metadata, now, now);
        preferences := preferences[k := row];
      }
    }

    /** `add_fact`: returns the row now stored under the key. */
    method AddFact(userId: string, kind: string, subject: string, value: string, confidence: int, source: string,
                   metadata: Json.Value, now: int) returns (row: Fact)
      modifies this
      ensures facts == PutFact(old(facts), (userId, kind, subject), value, confidence, source, metadata, now)
      ensures row == facts[(userId, kind, subject)]
      ensures preferences == old(preferences) && relations == old(relations) && tasks == old(tasks) && nextId == old(nextId)
    {
      var k := (userId, kind, subject);
      if k in facts {
        var existing := facts[k];
        if confidence >= existing.confidence || value != existing.value {
          var meta := if Json.Truthy(metadata) then metadata else existing.metadata;
          row := existing.(value := value, confidence := Max(confidence, existing.confidence), source := source,
                           metadata := meta, updatedAt := now, verifiedAt := now);
          facts := facts[k := row];
        } else {
          row := existing;
        }
      } else {
        row := Fact(value, confidence, source, metadata, now, now);
        facts := facts[k := row];
      }
    }

    /** `add_relation`, with the new row storing `extra_metadata`: returns the row now
        stored under the key. */
    method AddRelation(userId: string, subject: string, subjectType: string, relation: string, objectEntity: string,
                       objectType: string, confidence: int, bidirectional: bool, metadata: Json.Value, now: int)
      returns (row: Relation)
      modifies this
      ensures relations == PutRelation(old(relations), (userId, subject, relation, objectEntity), subjectType, objectType,
                                       confidence, bidirectional, metadata, now)
      ensures row == relations[(userId, subject, relation, objectEntity)]
      ensures preferences == old(preferences) && facts == old(facts) && tasks == old(tasks) && nextId == old(nextId)
    {
      var k := (userId, subject, relation, objectEntity);
      if k in relations {
        var existing := relations[k];
        if confidence > existing.confidence {
          var meta := if Json.Truthy(metadata) then metadata else existing.metadata;
          row := existing.(confidence := confidence, updatedAt := now, metadata := meta);
          relations := relations[k := row];
        } else {
          row := existing;
        }
      } else {
        row := Relation(subjectType, objectType, confidence, if bidirectional then 1 else 0, metadata, now);
        relations := relations[k := row];
      }
    }

    /** `add_task`: returns the active duplicate or the appended row. */
    method AddTask(req: TaskRequest, now: int) returns (task: Task)
      requires Valid()
      modifies this
      ensures Valid()
      ensures (tasks, task) == AddTaskTo(old(tasks), old(nextId), req, now)
      ensures nextId == old(nextId) + |tasks| - |old(tasks)|
      ensures preferences == old(preferences) && facts == old(facts) && relations == old(relations)
    {
      AddTaskKeepsIds(tasks, nextId, req, now);
      var existing := Similar(tasks, req.userId, req.title);
      if existing.Some? && existing.value.status == "active" {
        task := existing.value;
        return;
      }
      task := Task(nextId, req.userId, req.sessionId, req.kind, req.title, req.description, req.status,
                   ClampProgress(req.progress), req.priority, now, now, None);
      tasks := tasks + [task];
      nextId := nextId + 1;
    }

    /** `update_task`: `None`, changing nothing, unless the id names one of the user's tasks;
        otherwise that row is rewritten in place and returned. */
    method UpdateTask(taskId: nat, userId: string, status: Option<string>, progress: Option<int>,
                      description: Option<string>, now: int) returns (r: Option<Task>)
      requires Valid()
      modifies this
      ensures Valid()
      ensures var at := FindTask(old(tasks), taskId, userId);
        (at.None? ==> r.None? && tasks == old(tasks)) &&
        (at.Some? ==> r == Some(UpdatedTask(old(tasks)[at.value], status, progress, description, now)) &&
                      tasks == old(tasks)[at.value := r.value])
      ensures nextId == old(nextId) && preferences == old(preferences) && facts == old(facts) && relations == old(relations)
    {
      var at := FindTask(tasks, taskId, userId);
      if at.None? {
        return None;
      }
      var task := tasks[at.value];
      if status.Some? && status.value != [] {
        task := task.(status := status.value);
        if status.value == "completed" {
          task := task.(completedAt := Some(now), progress := 100);
        }
      }
      if progress.Some? {
        task := task.(progress := ClampProgress(progress.value));
      }
      if description.Some? && description.value != [] {
        task := task.(description := description);
      }
      task := task.(updatedAt := now);
      tasks := tasks[at.value := task];
      r := Some(task);
    }

    /** The preference loop of `add_extracted_memories`. */
    method AddPreferenceItems(items: seq<PrefItem>, userId: string, meta: Json.Value, now: int)
      returns (count: nat)
      modifies this
      ensures count == |items|
      ensures preferences == FoldPreferences(old(preferences), items, userId, meta, now)
      ensures facts == old(facts) && tasks == old(tasks) && nextId == old(nextId) && relations == old(relations)
    {
      count := 0;
      for i := 0 to |items|
        invariant count == i
        invariant preferences == FoldPreferences(old(preferences), items[..i], userId, meta, now)
        invariant facts == old(facts) && tasks == old(tasks) && nextId == old(nextId) && relations == old(relations)
      {
        var p := items[i];
        assert items[..i + 1][..i] == items[..i];
        var _ := AddPreference(userId, p.category.GetOr("general"), p.key.GetOr("unknown"), p.value.GetOr(""),
                               p.confidence.GetOr(5), p.source.GetOr("explicit"), meta, now);
        count := count + 1;
      }
      assert items[..|items|] == items;
    }

    /** The fact loop of `add_extracted_memories`. */
    method AddFactItems(items: seq<FactItem>, userId: string, meta: Json.Value, now: int)
      returns (count: nat)
      modifies this
      ensures count == |items|
      ensures facts == FoldFacts(old(facts), items, userId, meta, now)
      ensures preferences == old(preferences) && tasks == old(tasks) && nextId == old(nextId) && relations == old(relations)
    {
      count := 0;
      for i := 0 to |items|
        invariant count == i
        invariant facts == FoldFacts(old(facts), items[..i], userId, meta, now)
        invariant preferences == old(preferences) && tasks == old(tasks) && nextId == old(nextId) && relations == old(relations)
      {
        var f := items[i];
        assert items[..i + 1][..i] == items[..i];
        var _ := AddFact(userId, f.kind.GetOr("general"), f.subject.GetOr("unknown"), f.value.GetOr(""),
                         f.confidence.GetOr(5), f.source.GetOr("direct_statement"), meta, now);
        count := count + 1;
      }
      assert items[..|items|] == items;
    }

    /** The memory task loop of `add_extracted_memories`. */
    method AddTaskItems(items: seq<TaskItem>, userId: string, sessionId: Option<string>, now: int)
      returns (count: nat)
      requires Valid()
      modifies this
      ensures count == |items|
      ensures Valid()
      ensures (tasks, nextId) == FoldTasks(old(tasks), old(nextId), items, userId, sessionId, now)
      ensures preferences == old(preferences) && facts == old(facts) && relations == old(relations)
    {
      count := 0;
      for i := 0 to |items|
        invariant count == i
        invariant Valid()
        invariant tasks == FoldTasks(old(tasks), old(nextId), items[..i], userId, sessionId, now).0
        invariant nextId == FoldTasks(old(tasks), old(nextId), items[..i], userId, sessionId, now).1
        invariant preferences == old(preferences) && facts == old(facts) && relations == old(relations)
      {
        FoldTasksStep(old(tasks), old(nextId), items, i, userId, sessionId, now);
        var _ := AddTask(TaskRequestOf(items[i], userId, sessionId), now);
        count := count + 1;
      }
      assert items[..|items|] == items;
    }

    /** The relation loop of `add_extracted_memories`. */
    method AddRelationItems(items: seq<RelationItem>, userId: string, meta: Json.Value, now: int)
      returns (count: nat)
      modifies this
      ensures count == |items|
      ensures relations == FoldRelations(old(relations), items, userId, meta, now)
      ensures preferences == old(preferences) && facts == old(facts) && tasks == old(tasks) && nextId == old(nextId)
    {
      count := 0;
      for i := 0 to |items|
        invariant count == i
        invariant relations == FoldRelations(old(relations), items[..i], userId, meta, now)
        invariant preferences == old(preferences) && facts == old(facts) && tasks == old(tasks) && nextId == old(nextId)
      {
        var x := items[i];
        assert items[..i + 1][..i] == items[..i];
        ghost var before := relations;
        assert FoldRelations(old(relations), items[..i + 1], userId, meta, now) == PutRelationItem(before, x, userId, meta, now);
        var _ := AddRelation(userId, x.subject.GetOr(""), x.subjectType.GetOr("entity"), x.relation.GetOr("related_to"),
                             x.objectEntity.GetOr(""), x.objectType.GetOr("entity"), x.confidence.GetOr(5), false, meta, now);
        count := count + 1;
      }
      assert items[..|items|] == items;
    }

    /** `add_extracted_memories`: adds every item of each list in order and counts one per
        item. */
    method AddExtractedMemories(extracted: Extracted, userId: string, sessionId: Option<string>, now: int)
      returns (counts: Counts)
      requires Valid()
      modifies this
      ensures Valid()
      ensures counts == Counts(|extracted.preferences|, |extracted.facts|, |extracted.tasks|, |extracted.relations|)
      ensures preferences == FoldPreferences(old(preferences), extracted.preferences, userId, SessionMetadata(sessionId), now)
      ensures facts == FoldFacts(old(facts), extracted.facts, userId, SessionMetadata(sessionId), now)
      ensures (tasks, nextId) == FoldTasks(old(tasks), old(nextId), extracted.tasks, userId, sessionId, now)
      ensures relations == FoldRelations(old(relations), extracted.relations, userId, SessionMetadata(sessionId), now)
    {
      var meta := SessionMetadata(sessionId);
      var preferenceCount := AddPreferenceItems(extracted.preferences, userId, meta, now);
      var factCount := AddFactItems(extracted.facts, userId, meta, now);
      var taskCount := AddTaskItems(extracted.tasks, userId, sessionId, now);
      var relationCount := AddRelationItems(extracted.relations, userId, meta, now);
      counts := Counts(preferenceCount, factCount, taskCount, relationCount);
    }
  }
}
