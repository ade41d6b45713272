/** The in-memory store of core/memory_manager.py: conversation histories per
    session, task records and user preferences, each a map that the methods
    update in place. Every change also stamps the store with the time it was
    saved; the time is passed in, and the JSON file behind the store is not
    part of this model. */
module Memory {
  import opened Text
  import opened Wrappers

  /** A JSON value stored in a record: the model keeps strings and integers. */
  datatype Value = Str(text: string) | Int(number: int)

  type Record = map<string, Value>

  /** One turn of a conversation. */
  datatype Entry = Entry(timestamp: string, userInput: string, response: string, metadata: Record)

  /** The turn `add_conversation` records; missing metadata is stored as `{}`. */
  function NewEntry(now: string, userInput: string, response: string, metadata: Option<Record>): Entry
  {
    Entry(now, userInput, response, if metadata.Some? then metadata.value else map[])
  }

  /** How many turns a session keeps. */
  const MaxEntries: nat := 100

  /** `xs[-n:]` when `xs` is longer than `n`, else `xs`. */
  function KeepLast<T>(xs: seq<T>, n: nat): (r: seq<T>)
    ensures |r| == if |xs| > n then n else |xs|
    ensures r == xs[|xs| - |r|..]
  {
    if |xs| > n then xs[|xs| - n..] else xs
  }

  /** Keeping the last `n > 0` entries after an append keeps the appended one last. */
  lemma KeepLastKeepsNewest<T>(xs: seq<T>, x: T, n: nat)
    requires n > 0
    ensures var r := KeepLast(xs + [x], n); |r| > 0 && r[|r| - 1] == x
  {
  }

  /** The preferences of a user without stored ones. */
  const DefaultPreferences: Record := map[
    "image_size" := Str("1024x1024"),
    "image_style" := Str("realistic"),
    "video_duration" := Int(5),
    "provider" := Str("kling")
  ]

  /** `dict.update`: the new keys overwrite, the other keys stay. */
  lemma MergeOverwritesAndKeeps(old_: Record, new_: Record, k: string)
    ensures k in new_ ==> k in old_ + new_ && (old_ + new_)[k] == new_[k]
    ensures k !in new_ && k in old_ ==> k in old_ + new_ && (old_ + new_)[k] == old_[k]
    ensures k in old_ + new_ <==> k in old_ || k in new_
  {
  }

  /** `xs[-limit:]` for a conversation: the last `limit` entries for a
      positive limit, the whole list for 0 (since `-0 == 0`), and all but the
      first `-limit` entries for a negative limit. */
  lemma HistorySlice<T>(xs: seq<T>, limit: int)
    ensures limit > 0 ==> SliceFrom(xs, -limit) == xs[|xs| - (if limit < |xs| then limit else |xs|)..]
    ensures limit == 0 ==> SliceFrom(xs, -limit) == xs
    ensures limit < 0 ==> SliceFrom(xs, -limit) == xs[if -limit < |xs| then -limit else |xs|..]
  {
  }

  /** No session in the map holds more than `MaxEntries` turns. */
  ghost predicate Bounded(conversations: map<string, seq<Entry>>)
  {
    forall s :: s in conversations ==> |conversations[s]| <= MaxEntries
  }

  /** Storing a short enough list keeps every session within the bound. */
  lemma BoundedUpdate(conversations: map<string, seq<Entry>>, sessionId: string, turns: seq<Entry>)
    requires Bounded(conversations) && |turns| <= MaxEntries
    ensures Bounded(conversations[sessionId := turns])
  {
  }

  /** The counts of `get_statistics`. */
  datatype Statistics = Statistics(conversations: nat, tasks: nat, users: nat, lastUpdated: string)

  class MemoryManager {
    var conversations: map<string, seq<Entry>>
    var tasks: map<string, Record>
    var preferences: map<string, Record>
    var lastUpdated: string

    /** No session holds more than `MaxEntries` turns. */
    ghost predicate Valid()
      reads this
    {
      Bounded(conversations)
    }

    /** The default structure of a store that has no file yet. */
    constructor (now: string)
      ensures Valid()
      ensures conversations == map[] && tasks == map[] && preferences == map[]
      ensures lastUpdated == now
    {
      conversations := map[];
      tasks := map[];
      preferences := map[];
      lastUpdated := now;
    }

    /** The turns of a session, or none. */
    function Turns(sessionId: string): seq<Entry>
      reads this
    {
      if sessionId in conversations then conversations[sessionId] else []
    }

    /** `add_conversation`: append a turn to the session, creating it if
        needed, and keep only the last 100 turns. */
    method AddConversation(sessionId: string, userInput: string, response: string,
                           metadata: Option<Record>, now: string)
      requires Valid()
      modifies this
      ensures Valid()
      ensures conversations == old(conversations)[sessionId := KeepLast(old(Turns(sessionId)) + [NewEntry(now, userInput, response, metadata)], MaxEntries)]
      ensures var turns := conversations[sessionId];
        0 < |turns| <= MaxEntries && turns[|turns| - 1] == NewEntry(now, userInput, response, metadata)
      ensures tasks == old(tasks) && preferences == old(preferences) && lastUpdated == now
    {
      var entry := NewEntry(now, userInput, response, metadata);
      var turns := if sessionId in conversations then conversations[sessionId] else [];
      turns := turns + [entry];
      if |turns| > MaxEntries {
        turns := turns[|turns| - MaxEntries..];
      }
      KeepLastKeepsNewest(Turns(sessionId), entry, MaxEntries);
      assert turns == KeepLast(Turns(sessionId) + [entry], MaxEntries);
      BoundedUpdate(conversations, sessionId, turns);
      conversations := conversations[sessionId := turns];
      lastUpdated := now;
    }

    /** `get_conversation_history`: nothing for an unknown session, else `turns[-limit:]`. */
    method GetConversationHistory(sessionId: string, limit: int) returns (r: seq<Entry>)
      ensures sessionId !in conversations ==> r == []
      ensures sessionId in conversations ==> r == SliceFrom(conversations[sessionId], -limit)
      ensures limit >= 0 ==> |r| <= |Turns(sessionId)|
    {
      if sessionId !in conversations {
        return [];
      }
      r := SliceFrom(conversations[sessionId], -limit);
    }

    /** `add_task`: store the task under its id, replacing any earlier record,
        with both time stamps set. */
    method AddTask(taskId: string, info: Record, now: string)
      modifies this
      ensures tasks == old(tasks)[taskId := info + map["created_at" := Str(now), "updated_at" := Str(now)]]
      ensures conversations == old(conversations) && preferences == old(preferences) && lastUpdated == now
    {
      tasks := tasks[taskId := info + map["created_at" := Str(now), "updated_at" := Str(now)]];
      lastUpdated := now;
    }

    /** `update_task_status`: nothing happens for an unknown id; otherwise the
        status and the update time are set, and the result when one is given. */
    method UpdateTaskStatus(taskId: string, status: string, result: Option<Value>, now: string)
      modifies this
      ensures taskId !in old(tasks) ==> tasks == old(tasks) && lastUpdated == old(lastUpdated)
      ensures taskId in old(tasks) ==>
        var updated := old(tasks)[taskId]["status" := Str(status)]["updated_at" := Str(now)];
        tasks == old(tasks)[taskId := if result.Some? then updated["result" := result.value] else updated]
        && lastUpdated == now
      ensures conversations == old(conversations) && preferences == old(preferences)
    {
      if taskId in tasks {
        var record := tasks[taskId]["status" := Str(status)]["updated_at" := Str(now)];
        if result.Some? {
          record := record["result" := result.value];
        }
        tasks := tasks[taskId := record];
        lastUpdated := now;
      }
    }

    /** `get_task`. */
    method GetTask(taskId: string) returns (r: Option<Record>)
      ensures r.Some? <==> taskId in tasks
      ensures r.Some? ==> r.value == tasks[taskId]
    {
      r := if taskId in tasks then Some(tasks[taskId]) else None;
    }

    /** `get_user_preferences`: the stored preferences, else the defaults. */
    method GetUserPreferences(userId: string) returns (r: Record)
      ensures userId in preferences ==> r == preferences[userId]
      ensures userId !in preferences ==> r == DefaultPreferences
    {
      r := if userId in preferences then preferences[userId] else DefaultPreferences;
    }

    /** `update_user_preferences`: merge the given preferences into the
        stored ones, starting from none (not from the defaults). */
    method UpdateUserPreferences(userId: string, update: Record, now: string)
      modifies this
      ensures preferences == old(preferences)[userId := (if userId in old(preferences) then old(preferences)[userId] else map[]) + update]
      ensures conversations == old(conversations) && tasks == old(tasks) && lastUpdated == now
    {
      if userId !in preferences {
        preferences := preferences[userId := map[]];
      }
      preferences := preferences[userId := preferences[userId] + update];
      lastUpdated := now;
    }

    /** `clear_session`: forget the session, if it exists. */
    method ClearSession(sessionId: string, now: string)
      requires Valid()
      modifies this
      ensures Valid()
      ensures conversations == old(conversations) - {sessionId}
      ensures sessionId in old(conversations) ==> lastUpdated == now
      ensures sessionId !in old(conversations) ==> lastUpdated == old(lastUpdated)
      ensures tasks == old(tasks) && preferences == old(preferences)
    {
      if sessionId in conversations {
        conversations := conversations - {sessionId};
        lastUpdated := now;
      }
    }

    /** `get_statistics`: the sizes of the three maps. */
    method GetStatistics() returns (s: Statistics)
      ensures s == Statistics(|conversations|, |tasks|, |preferences|, lastUpdated)
    {
      s := Statistics(|conversations|, |tasks|, |preferences|, lastUpdated);
    }
  }

  /** A session's latest turn is what a history of one returns. */
  lemma LatestTurnIsLast(xs: seq<Entry>, e: Entry)
    ensures SliceFrom(KeepLast(xs + [e], MaxEntries), -1) == [e]
  {
    KeepLastKeepsNewest(xs, e, MaxEntries);
  }
}
