/** The append-only event log of a run: sequence allocation, deduplication keys, and what a reader replays from it. */
module RunLog {
  import opened Options
  import opened Runs

  /** What a repeated deduplication key must repeat. `facts` stands for the descriptive columns: event type,
      source, actor, entity, step, outcome, error code, message and details. */
  datatype Content = Content(previous: Option<RunStatus>, current: Option<RunStatus>, task: Option<nat>,
                             attempt: Option<nat>, facts: string)

  /** What a retry may change: request, pulse and duration. */
  datatype Context = Context(request: string, pulse: Option<nat>, durationMs: Option<nat>)

  datatype Event<K> = Event(sequence: nat, key: K, content: Content, context: Context, occurredAt: int)

  datatype Recorded<K> =
    | Appended(log: seq<Event<K>>)
    | Existing(event: Event<K>)
    | Conflict

  predicate HasKey<K(==)>(log: seq<Event<K>>, key: K) {
    log != [] && (log[|log| - 1].key == key || HasKey(log[..|log| - 1], key))
  }

  /** The event with this key; keys are never repeated, so there is only one. */
  function Find<K(==)>(log: seq<Event<K>>, key: K): (event: Event<K>)
    requires HasKey(log, key)
    ensures event.key == key && event in log
  {
    if log[|log| - 1].key == key then log[|log| - 1] else Find(log[..|log| - 1], key)
  }

  function LatestSequence<K>(log: seq<Event<K>>): nat {
    if log == [] then 0
    else
      var rest, last := LatestSequence(log[..|log| - 1]), log[|log| - 1].sequence;
      if last > rest then last else rest
  }

  predicate SameContent<K>(event: Event<K>, content: Content, occurredAt: Option<int>) {
    event.content == content && (occurredAt.Some? ==> event.occurredAt == occurredAt.value)
  }

  function Record<K(==)>(log: seq<Event<K>>, key: K, content: Content, context: Context, occurredAt: Option<int>,
                         now: int): Recorded<K> {
    if HasKey(log, key) then
      if SameContent(Find(log, key), content, occurredAt) then Existing(Find(log, key)) else Conflict
    else Appended(log + [Event(LatestSequence(log) + 1, key, content, context, occurredAt.GetOr(now))])
  }

  /** The log after the call; a conflict is an exception, and rolls back. */
  function LogAfter<K>(log: seq<Event<K>>, r: Recorded<K>): seq<Event<K>> {
    if r.Appended? then r.log else log
  }

  // ----- What the log promises -----

  predicate Sequenced<K>(log: seq<Event<K>>) {
    forall i :: 0 <= i < |log| ==> log[i].sequence == i + 1
  }

  predicate KeysOnce<K(==)>(log: seq<Event<K>>) {
    forall i, j :: 0 <= i < j < |log| ==> log[i].key != log[j].key
  }

  lemma {:induction false} HasKeyIsMember<K>(log: seq<Event<K>>, key: K)
    ensures HasKey(log, key) <==> exists i :: 0 <= i < |log| && log[i].key == key
    decreases |log|
  {
    if log != [] {
      var init := log[..|log| - 1];
      HasKeyIsMember(init, key);
      if HasKey(init, key) {
        var i :| 0 <= i < |init| && init[i].key == key;
        assert log[i].key == key;
      }
      if exists i :: 0 <= i < |log| && log[i].key == key {
        var i :| 0 <= i < |log| && log[i].key == key;
        assert i < |init| ==> init[i].key == key;
      }
    }
  }

  lemma {:induction false} LatestIsLength<K>(log: seq<Event<K>>)
    requires Sequenced(log)
    ensures LatestSequence(log) == |log|
    decreases |log|
  {
    if log != [] {
      LatestIsLength(log[..|log| - 1]);
    }
  }

  lemma {:induction false} LatestIsMaximum<K>(log: seq<Event<K>>)
    ensures forall event <- log :: event.sequence <= LatestSequence(log)
    ensures log != [] ==> exists event <- log :: event.sequence == LatestSequence(log)
    decreases |log|
  {
    if log != [] {
      var init := log[..|log| - 1];
      LatestIsMaximum(init);
      assert forall event <- log :: event in init || event == log[|log| - 1];
      assert log[|log| - 1] in log;
    }
  }

  lemma {:induction false} KeyFoundOnce<K>(log: seq<Event<K>>, i: nat)
    requires KeysOnce(log) && i < |log|
    ensures HasKey(log, log[i].key) && Find(log, log[i].key) == log[i]
    decreases |log|
  {
    if i < |log| - 1 {
      var init := log[..|log| - 1];
      KeyFoundOnce(init, i);
      assert init[i] == log[i];
    }
  }

  /** Recording keeps what was there, numbers events 1..n, and never repeats a key; only a new key adds an event. */
  lemma RecordKeepsLog<K>(log: seq<Event<K>>, key: K, content: Content, context: Context, occurredAt: Option<int>,
                          now: int)
    requires Sequenced(log) && KeysOnce(log)
    ensures var r := Record(log, key, content, context, occurredAt, now);
            var after := LogAfter(log, r);
            && Sequenced(after) && KeysOnce(after) && log <= after
            && |after| == |log| + (if HasKey(log, key) then 0 else 1)
            && (r.Appended? <==> !HasKey(log, key))
            && (r.Existing? ==> r.event in log && r.event.key == key && r.event.content == content)
            && (r.Conflict? <==>
                  (exists i :: 0 <= i < |log| && log[i].key == key && !SameContent(log[i], content, occurredAt)))
  {
    LatestIsLength(log);
    HasKeyIsMember(log, key);
    if HasKey(log, key) {
      var i :| 0 <= i < |log| && log[i].key == key;
      KeyFoundOnce(log, i);
    }
  }

  /** What a recorded event holds, and when a known key is answered with its event. */
  lemma RecordMeans<K>(log: seq<Event<K>>, key: K, content: Content, context: Context, occurredAt: Option<int>,
                       now: int)
    requires Sequenced(log) && KeysOnce(log)
    ensures var r := Record(log, key, content, context, occurredAt, now);
            var time := if occurredAt.Some? then occurredAt.value else now;
            && ((forall i :: 0 <= i < |log| ==> log[i].key != key) ==>
                  r == Appended(log + [Event(|log| + 1, key, content, context, time)]))
            && forall i :: 0 <= i < |log| && log[i].key == key ==>
                 r == if log[i].content == content && (occurredAt.None? || occurredAt.value == log[i].occurredAt)
                      then Existing(log[i]) else Conflict
  {
    LatestIsLength(log);
    HasKeyIsMember(log, key);
    forall i | 0 <= i < |log| && log[i].key == key
      ensures HasKey(log, key) && Find(log, key) == log[i]
    {
      KeyFoundOnce(log, i);
    }
  }

  /** Recording again, at any later time and from any request, returns the first event and adds nothing. */
  lemma RecordAgain<K>(log: seq<Event<K>>, key: K, content: Content, context: Context, occurredAt: Option<int>,
                       now: int,
                       later: seq<Event<K>>, again: Context, nextTime: int)
    requires Sequenced(later) && KeysOnce(later) && Record(log, key, content, context, occurredAt, now).Appended?
    requires Record(log, key, content, context, occurredAt, now).log <= later
    ensures Record(later, key, content, again, occurredAt, nextTime) ==
            Existing(Record(log, key, content, context, occurredAt, now).log[|log|])
  {
    KeyFoundOnce(later, |log|);
  }

  // ----- Status columns -----

  /** The status a reader replays: the last one written. */
  function Replay<K>(log: seq<Event<K>>): Option<RunStatus> {
    if log == [] then None
    else if log[|log| - 1].content.current.Some? then log[|log| - 1].content.current
    else Replay(log[..|log| - 1])
  }

  /** Every stated previous status is the one replayed up to there. */
  predicate Chained<K>(log: seq<Event<K>>) {
    forall i :: 0 <= i < |log| && log[i].content.previous.Some? ==> log[i].content.previous == Replay(log[..i])
  }

  lemma ChainedSnoc<K>(log: seq<Event<K>>, e: Event<K>)
    requires Chained(log) && (e.content.previous.Some? ==> e.content.previous == Replay(log))
    ensures Chained(log + [e])
    ensures Replay(log + [e]) == if e.content.current.Some? then e.content.current else Replay(log)
  {
    var after := log + [e];
    assert after[..|log|] == log;
    forall i | 0 <= i < |after| && after[i].content.previous.Some?
      ensures after[i].content.previous == Replay(after[..i])
    {
      if i < |log| {
        assert after[..i] == log[..i];
      }
    }
  }

  // ----- The service -----

  class Log<K(==)> {
    var events: seq<Event<K>>

    constructor ()
      ensures events == []
    {
      events := [];
    }

    /** The event of this key, by a scan. */
    method First(key: K) returns (found: Option<Event<K>>)
      requires KeysOnce(events)
      ensures found.Some? <==> HasKey(events, key)
      ensures found.Some? ==> found.value == Find(events, key)
    {
      HasKeyIsMember(events, key);
      for i := 0 to |events|
        invariant forall j :: 0 <= j < i ==> events[j].key != key
      {
        if events[i].key == key {
          KeyFoundOnce(events, i);
          return Some(events[i]);
        }
      }
      return None;
    }

    method MaxSequence() returns (latest: nat)
      ensures latest == LatestSequence(events)
    {
      latest := 0;
      for i := 0 to |events|
        invariant latest == LatestSequence(events[..i])
      {
        assert events[..i + 1][..i] == events[..i];
        if events[i].sequence > latest {
          latest := events[i].sequence;
        }
      }
      assert events[..|events|] == events;
    }

    /** None is the conflict error. */
    method RecordRunEvent(key: K, content: Content, context: Context, occurredAt: Option<int>, now: int)
      returns (result: Option<Event<K>>, created: bool)
      requires Sequenced(events) && KeysOnce(events)
      modifies this
      ensures var r := Record(old(events), key, content, context, occurredAt, now);
              && events == LogAfter(old(events), r)
              && created == r.Appended?
              && result == (match r
                            case Appended(log) => Some(log[|log| - 1])
                            case Existing(e) => Some(e)
                            case Conflict => None)
      ensures Sequenced(events) && KeysOnce(events) && old(events) <= events
    {
      RecordKeepsLog(events, key, content, context, occurredAt, now);
      var existing := First(key);
      if existing.Some? {
        if existing.value.content != content || (occurredAt.Some? && existing.value.occurredAt != occurredAt.value) {
          return None, false;
        }
        return existing, false;
      }
      var latest := MaxSequence();
      var event := Event(latest + 1, key, content, context, occurredAt.GetOr(now));
      events := events + [event];
      return Some(event), true;
    }
  }
}
