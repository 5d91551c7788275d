/** The in-memory session table: one `StateRecord` per session id, with
    create/get/update/delete, running a message or the start node through
    the workflow, and the idle cleanup. The table functions say what each
    operation yields; `SessionManager` is the object whose methods follow
    them. */
module SessionManagement {
  import opened Wrappers
  import opened Values
  import opened State
  import Text

  type Table = map<string, StateRecord>

  /** `active_sessions.get(id)` */
  function Lookup(t: Table, id: string): (r: Option<StateRecord>)
    ensures r.Some? <==> id in t
    ensures r.Some? ==> r.value == t[id]
  {
    if id in t then Some(t[id]) else None
  }

  /** `create_session`: a fresh state under the id, replacing any old one. */
  function Created(t: Table, id: string, now: int): (r: Table)
    ensures r.Keys == t.Keys + {id}
    ensures r[id] == NewState(id, now) && r[id].messages == [] && r[id].active && !r[id].processing
    ensures forall k :: k in t && k != id ==> r[k] == t[k]
  {
    t[id := NewState(id, now)]
  }

  /** The id `create_session` uses: the given one, or a fresh one when
      none is given (an empty string is a given id). */
  function ChosenId(requested: Option<string>, freshId: string): string {
    match requested
    case Some(id) => id
    case None => freshId
  }

  /** `update_session`: only an id already present is updated, and its
      stored state gets `last_updated = now`. */
  function Updated(t: Table, id: string, s: StateRecord, now: int): (r: (Table, bool))
    ensures r.1 <==> id in t
    ensures r.1 ==> r.0.Keys == t.Keys && r.0[id] == s.(lastUpdated := now)
    ensures !r.1 ==> r.0 == t
    ensures forall k :: k in t && k != id ==> k in r.0 && r.0[k] == t[k]
  {
    if id in t then (t[id := s.(lastUpdated := now)], true) else (t, false)
  }

  /** `delete_session` */
  function Deleted(t: Table, id: string): (r: (Table, bool))
    ensures r.1 <==> id in t
    ensures r.0.Keys == t.Keys - {id}
    ensures forall k :: k in r.0 ==> r.0[k] == t[k]
  {
    if id in t then (t - {id}, true) else (t, false)
  }

  /** A deleted session is gone, and deleting it again reports false. */
  lemma DeleteThenGone(t: Table, id: string)
    ensures Lookup(Deleted(t, id).0, id) == None
    ensures !Deleted(Deleted(t, id).0, id).1
  {
  }

  /** A created session is found, fresh, until it is updated or deleted. */
  lemma CreateThenFound(t: Table, id: string, now: int)
    ensures Lookup(Created(t, id, now), id) == Some(NewState(id, now))
    ensures Updated(Created(t, id, now), id, NewState(id, now), now).1
  {
  }

  /** `get_session_info`: the public summary of a stored session. */
  function SessionInfo(t: Table, id: string, iso: int -> string): (r: Option<map<string, Value>>)
    ensures r.None? <==> id !in t
    ensures r.Some? ==>
      r.value.Keys == {"session_id", "active", "message_count", "created_at", "last_updated", "processing"} &&
      r.value["session_id"] == Str(id) && r.value["active"] == Bool(t[id].active) &&
      r.value["message_count"] == Int(t[id].totalMessages) && r.value["processing"] == Bool(t[id].processing) &&
      r.value["created_at"] == Str(iso(t[id].createdAt)) && r.value["last_updated"] == Str(iso(t[id].lastUpdated))
  {
    if id !in t then None
    else
      var s := t[id];
      Some(map[
        "session_id" := Str(id),
        "active" := Bool(s.active),
        "message_count" := Int(s.totalMessages),
        "created_at" := Str(iso(s.createdAt)),
        "last_updated" := Str(iso(s.lastUpdated)),
        "processing" := Bool(s.processing)])
  }

  /** `get_all_sessions`: one summary per stored id. */
  function AllSessions(t: Table, iso: int -> string): (r: map<string, map<string, Value>>)
    ensures r.Keys == t.Keys
    ensures forall id :: id in r ==> SessionInfo(t, id, iso) == Some(r[id])
  {
    map id | id in t :: SessionInfo(t, id, iso).value
  }

  /** The state `process_message` and `initialize_session` start from: the
      stored one, or a fresh one for a missing id. */
  function Current(t: Table, id: string, now: int): StateRecord {
    if id in t then t[id] else NewState(id, now)
  }

  /** What the workflow is given by `process_message`: the current state
      with the user message set and `processing` on. */
  function Pending(t: Table, id: string, message: string, now: int): (s: StateRecord)
    ensures s.lastUserMessage == Some(message) && s.processing
  {
    Current(t, id, now).(lastUserMessage := Some(message), processing := true)
  }

  /** The compiled workflow as a function of the state it is invoked on;
      `Err` is the text of what it raised. */
  type Workflow = StateRecord -> Result<StateRecord, string>

  /** `process_message`: the table afterwards and the state returned (or
      the error re-raised). A failure stores the pending state with
      `processing` off; success stores the workflow's state under the same
      id. */
  function Processed(t: Table, id: string, message: string, workflow: Workflow, now: int): (r: (Table, Result<StateRecord, string>))
    ensures id in r.0 && r.0[id].lastUpdated == now
    ensures r.1.Ok? ==> r.0[id] == r.1.value
    ensures r.1.Err? ==> !r.0[id].processing && r.0[id].lastUserMessage == Some(message)
  {
    var pending := Pending(t, id, message, now);
    match workflow(pending)
    case Ok(result) =>
      var stored := result.(sessionId := id, lastUpdated := now);
      (t[id := stored], Ok(stored))
    case Err(e) =>
      (t[id := pending.(processing := false, lastUpdated := now)], Err(e))
  }

  /** Whatever the workflow does, the session ends up stored under its own
      id, other sessions are untouched, and a failure leaves it not
      processing with the user message recorded and the error passed on. */
  lemma ProcessMessageOutcome(t: Table, id: string, message: string, workflow: Workflow, now: int)
    ensures var (t2, r) := Processed(t, id, message, workflow, now);
      t2.Keys == t.Keys + {id} && (forall k :: k in t && k != id ==> t2[k] == t[k]) &&
      (r.Ok? ==> t2[id] == r.value && r.value.sessionId == id && r.value.lastUpdated == now) &&
      (r.Err? ==> r == workflow(Pending(t, id, message, now)) && !t2[id].processing &&
                  t2[id].lastUserMessage == Some(message))
  {
  }

  /** `initialize_session`: the workflow runs on the current state; on
      success its result is stored, on failure the (possibly just created)
      session stays as it was and the error is passed on. */
  function Initialized(t: Table, id: string, workflow: Workflow, now: int): (r: (Table, Result<StateRecord, string>))
    ensures id in r.0 && r.0.Keys == t.Keys + {id}
    ensures forall k :: k in t && k != id ==> r.0[k] == t[k]
    ensures r.1.Err? ==> r.0[id] == Current(t, id, now)
    ensures r.1.Ok? ==> r.0[id] == r.1.value && r.1.value.sessionId == id
  {
    var current := Current(t, id, now);
    var t1 := t[id := current];
    match workflow(current)
    case Ok(result) =>
      var stored := result.(sessionId := id, lastUpdated := now);
      (t1[id := stored], Ok(stored))
    case Err(e) => (t1, Err(e))
  }

  /** Idle sessions: not updated since the cutoff, or no longer active. */
  predicate Expired(s: StateRecord, cutoff: int) {
    s.lastUpdated < cutoff || !s.active
  }

  /** `datetime.utcnow() - timedelta(hours=max_age_hours)` in seconds. */
  function Cutoff(now: int, maxAgeHours: int): int {
    now - maxAgeHours * 3600
  }

  function ExpiredIds(t: Table, cutoff: int): set<string> {
    set id | id in t && Expired(t[id], cutoff)
  }

  /** The table after `cleanup_inactive_sessions`. */
  function Kept(t: Table, cutoff: int): map<string, StateRecord> {
    map id | id in t && !Expired(t[id], cutoff) :: t[id]
  }

  /** Cleanup splits the table: the kept sessions are exactly the
      non-expired ones, unchanged, and they and the removed ones together
      are the whole table. */
  lemma CleanupPartition(t: Table, cutoff: int)
    ensures Kept(t, cutoff).Keys == t.Keys - ExpiredIds(t, cutoff)
    ensures forall id :: id in Kept(t, cutoff) ==> Kept(t, cutoff)[id] == t[id] && !Expired(t[id], cutoff)
    ensures |Kept(t, cutoff)| + |ExpiredIds(t, cutoff)| == |t|
  {
    var kept := Kept(t, cutoff).Keys;
    var gone := ExpiredIds(t, cutoff);
    assert kept + gone == t.Keys;
    assert kept !! gone;
    assert |kept + gone| == |kept| + |gone|;
  }

  class SessionManager {
    var sessions: Table

    constructor ()
      ensures sessions == map[]
    {
      sessions := map[];
    }

    method CreateSession(requested: Option<string>, freshId: string, now: int) returns (id: string)
      modifies this
      ensures id == ChosenId(requested, freshId)
      ensures sessions == Created(old(sessions), id, now)
    {
      id := if requested.None? then freshId else requested.value;
      sessions := sessions[id := NewState(id, now)];
    }

    function GetSession(id: string): (r: Option<StateRecord>)
      reads this
      ensures r == Lookup(sessions, id)
    {
      if id in sessions then Some(sessions[id]) else None
    }

    method UpdateSession(id: string, s: StateRecord, now: int) returns (ok: bool)
      modifies this
      ensures (sessions, ok) == Updated(old(sessions), id, s, now)
    {
      if id in sessions {
        sessions := sessions[id := s.(lastUpdated := now)];
        ok := true;
      } else {
        ok := false;
      }
    }

    method DeleteSession(id: string) returns (ok: bool)
      modifies this
      ensures (sessions, ok) == Deleted(old(sessions), id)
    {
      if id in sessions {
        sessions := sessions - {id};
        ok := true;
      } else {
        ok := false;
      }
    }

    method ProcessMessage(id: string, message: string, workflow: Workflow, now: int)
      returns (r: Result<StateRecord, string>)
      modifies this
      ensures (sessions, r) == Processed(old(sessions), id, message, workflow, now)
    {
      ghost var t := sessions;
      var state := GetSession(id);
      if state.None? {
        var _ := CreateSession(Some(id), id, now);
        state := GetSession(id);
      }
      assert state.value == Current(t, id, now);
      var pending := state.value.(lastUserMessage := Some(message), processing := true);
      sessions := sessions[id := pending];
      var result := workflow(pending);
      if result.Ok? {
        var updated := result.value.(sessionId := id);
        var _ := UpdateSession(id, updated, now);
        r := Ok(updated.(lastUpdated := now));
        assert sessions == t[id := updated.(lastUpdated := now)];
      } else {
        var _ := UpdateSession(id, pending.(processing := false), now);
        r := Err(result.error);
        assert sessions == t[id := pending.(processing := false, lastUpdated := now)];
      }
    }

    method InitializeSession(id: string, workflow: Workflow, now: int) returns (r: Result<StateRecord, string>)
      modifies this
      ensures (sessions, r) == Initialized(old(sessions), id, workflow, now)
    {
      ghost var t := sessions;
      var state := GetSession(id);
      if state.None? {
        var _ := CreateSession(Some(id), id, now);
        state := GetSession(id);
      }
      assert state.value == Current(t, id, now) && sessions == t[id := state.value];
      var result := workflow(state.value);
      if result.Ok? {
        var updated := result.value.(sessionId := id);
        var _ := UpdateSession(id, updated, now);
        r := Ok(updated.(lastUpdated := now));
      } else {
        r := Err(result.error);
      }
    }

    function GetSessionInfo(id: string, iso: int -> string): (r: Option<map<string, Value>>)
      reads this
      ensures r == SessionInfo(sessions, id, iso)
    {
      SessionInfo(sessions, id, iso)
    }

    function GetAllSessions(iso: int -> string): (r: map<string, map<string, Value>>)
      reads this
      ensures r == AllSessions(sessions, iso)
    {
      AllSessions(sessions, iso)
    }

    /** The first pass of the cleanup: the ids of the expired sessions,
        each once. */
    method CollectExpired(cutoff: int) returns (toDelete: seq<string>)
      ensures (set x | x in toDelete) == ExpiredIds(sessions, cutoff)
      ensures |toDelete| == |ExpiredIds(sessions, cutoff)|
      ensures forall i, j :: 0 <= i < j < |toDelete| ==> toDelete[i] != toDelete[j]
      ensures forall i :: 0 <= i < |toDelete| ==> toDelete[i] in sessions && Expired(sessions[toDelete[i]], cutoff)
    {
      toDelete := [];
      var remaining := sessions.Keys;
      while remaining != {}
        invariant remaining <= sessions.Keys
        invariant forall id :: id in toDelete <==> id in sessions && id !in remaining && Expired(sessions[id], cutoff)
        invariant forall i, j :: 0 <= i < j < |toDelete| ==> toDelete[i] != toDelete[j]
        decreases remaining
      {
        var id :| id in remaining;
        if Expired(sessions[id], cutoff) {
          toDelete := toDelete + [id];
        }
        remaining := remaining - {id};
      }
      Text.DistinctCard(toDelete);
    }

    /** The second pass: deletes each listed id, counting the deletions
        that succeed; with distinct ids that are all present, every one
        succeeds. */
    method DeleteAll(toDelete: seq<string>) returns (deleted: nat)
      requires forall i :: 0 <= i < |toDelete| ==> toDelete[i] in sessions
      requires forall i, j :: 0 <= i < j < |toDelete| ==> toDelete[i] != toDelete[j]
      modifies this
      ensures sessions.Keys == old(sessions).Keys - (set x | x in toDelete)
      ensures forall k :: k in sessions ==> sessions[k] == old(sessions)[k]
      ensures deleted == |toDelete|
    {
      deleted := 0;
      var i := 0;
      ghost var done: set<string> := {};
      while i < |toDelete|
        invariant 0 <= i <= |toDelete| && deleted == i
        invariant done == set x | x in toDelete[..i]
        invariant sessions.Keys == old(sessions).Keys - done
        invariant forall k :: k in sessions ==> sessions[k] == old(sessions)[k]
      {
        assert toDelete[i] !in done;
        var ok := DeleteSession(toDelete[i]);
        assert ok;
        deleted := deleted + 1;
        done := done + {toDelete[i]};
        assert toDelete[..i + 1] == toDelete[..i] + [toDelete[i]];
        i := i + 1;
      }
      assert toDelete[..i] == toDelete;
    }

    /** `cleanup_inactive_sessions` */
    method CleanupInactiveSessions(maxAgeHours: int, now: int) returns (deleted: nat)
      modifies this
      ensures sessions == Kept(old(sessions), Cutoff(now, maxAgeHours))
      ensures deleted == |ExpiredIds(old(sessions), Cutoff(now, maxAgeHours))|
    {
      var cutoff := Cutoff(now, maxAgeHours);
      var toDelete := CollectExpired(cutoff);
      deleted := DeleteAll(toDelete);
      CleanupPartition(old(sessions), cutoff);
    }
  }
}
