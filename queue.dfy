/**
 * The task queue: a first-in first-out list of entries. Each entry wraps a
 * task with a fresh identifier, an insertion stamp, the submitting user, an
 * optional context identifier and a priority. Neither priority nor context
 * affects which entry leaves first.
 */
module TaskQueue {
  import opened Common
  import opened Tasks

  /**
   * `entryId` is the identifier the queue assigns (a fresh value, not the
   * task's own `taskId`); `timestamp` is the insertion stamp. Both come from
   * the queue's counter.
   */
  datatype QueueEntry = QueueEntry(
    entryId: nat,
    task: Task,
    timestamp: nat,
    user: string,
    contextId: Option<string>,
    priority: int)

  /** Identifiers increase from front to back, so they are pairwise distinct. */
  ghost predicate IdsIncreasing(s: seq<QueueEntry>)
  {
    forall i, j :: 0 <= i < j < |s| ==> s[i].entryId < s[j].entryId
  }

  /** The index of the first entry with identifier `id`, or `|s|` when there is none. */
  function FirstIndexOf(s: seq<QueueEntry>, id: nat): (k: nat)
    ensures k <= |s|
    ensures forall j :: 0 <= j < k ==> s[j].entryId != id
    ensures k < |s| ==> s[k].entryId == id
    ensures k == |s| <==> forall j :: 0 <= j < |s| ==> s[j].entryId != id
  {
    if s == [] then 0
    else if s[0].entryId == id then 0
    else 1 + FirstIndexOf(s[1..], id)
  }

  /** An entry with the identifier, preceded by none, is the first one. */
  lemma FirstMatch(s: seq<QueueEntry>, id: nat, i: nat)
    requires i < |s| && s[i].entryId == id
    requires forall j :: 0 <= j < i ==> s[j].entryId != id
    ensures FirstIndexOf(s, id) == i
  {
  }

  /** Deleting one entry keeps the identifiers increasing and below the bound. */
  lemma DropOne(s: seq<QueueEntry>, i: nat, bound: nat)
    requires i < |s| && IdsIncreasing(s)
    requires forall j :: 0 <= j < |s| ==> s[j].entryId < bound
    ensures var t := s[..i] + s[i + 1..];
      IdsIncreasing(t) && forall j :: 0 <= j < |t| ==> t[j].entryId < bound
  {
    var t := s[..i] + s[i + 1..];
    assert forall j :: 0 <= j < |t| ==> t[j] == if j < i then s[j] else s[j + 1];
  }

  /** The entries whose context is (`inside`) or is not (`!inside`) `Some(c)`, in queue order. */
  function Select(s: seq<QueueEntry>, c: string, inside: bool): (r: seq<QueueEntry>)
    ensures |r| <= |s|
    ensures forall e :: e in r ==> e in s && (e.contextId == Some(c)) == inside
  {
    if s == [] then []
    else (if (s[0].contextId == Some(c)) == inside then [s[0]] else []) + Select(s[1..], c, inside)
  }

  /** Selecting from a concatenation selects from each part. */
  lemma {:induction false} SelectAppend(a: seq<QueueEntry>, b: seq<QueueEntry>, c: string, inside: bool)
    ensures Select(a + b, c, inside) == Select(a, c, inside) + Select(b, c, inside)
  {
    if a == [] {
      assert a + b == b;
    } else {
      assert (a + b)[1..] == a[1..] + b;
      SelectAppend(a[1..], b, c, inside);
    }
  }

  /** Splitting by context loses nothing and invents nothing: the two parts together are a permutation of the queue. */
  lemma {:induction false} SelectPartitions(s: seq<QueueEntry>, c: string)
    ensures multiset(Select(s, c, true)) + multiset(Select(s, c, false)) == multiset(s)
  {
    if s != [] {
      SelectPartitions(s[1..], c);
      ConsPartition(s, Select(s[1..], c, true), Select(s[1..], c, false), Select(s, c, true), Select(s, c, false));
    }
  }

  /** Putting the head of `s` into either part of a split of its tail gives a split of `s`. */
  lemma ConsPartition<T>(s: seq<T>, a: seq<T>, b: seq<T>, a': seq<T>, b': seq<T>)
    requires s != [] && multiset(a) + multiset(b) == multiset(s[1..])
    requires (a' == [s[0]] + a && b' == [] + b) || (a' == [] + a && b' == [s[0]] + b)
    ensures multiset(a') + multiset(b') == multiset(s)
  {
    assert s == [s[0]] + s[1..];
    assert [] + a == a && [] + b == b;
  }

  /** A selection keeps identifiers increasing. */
  lemma {:induction false} SelectKeepsOrder(s: seq<QueueEntry>, c: string, inside: bool)
    requires IdsIncreasing(s)
    ensures IdsIncreasing(Select(s, c, inside))
  {
    if s != [] {
      var tail := Select(s[1..], c, inside);
      assert IdsIncreasing(s[1..]) by {
        forall i, j | 0 <= i < j < |s[1..]| ensures s[1..][i].entryId < s[1..][j].entryId {
          assert s[1..][i] == s[i + 1] && s[1..][j] == s[j + 1];
        }
      }
      SelectKeepsOrder(s[1..], c, inside);
      if (s[0].contextId == Some(c)) == inside {
        forall e | e in tail ensures s[0].entryId < e.entryId {
          var k :| 0 <= k < |s[1..]| && s[1..][k] == e;
          assert s[k + 1] == e;
        }
        Prepend(s[0], tail);
      }
    }
  }

  /** Putting an entry with a smaller identifier than all others in front keeps the order. */
  lemma Prepend(e: QueueEntry, tail: seq<QueueEntry>)
    requires IdsIncreasing(tail)
    requires forall x :: x in tail ==> e.entryId < x.entryId
    ensures IdsIncreasing([e] + tail)
  {
    var r := [e] + tail;
    forall i, j | 0 <= i < j < |r| ensures r[i].entryId < r[j].entryId {
      assert r[j] == tail[j - 1] && r[j] in tail;
      if i > 0 {
        assert r[i] == tail[i - 1];
      }
    }
  }

  class QPUTaskQueue {
    /** Pending entries, oldest first. */
    var entries: seq<QueueEntry>
    /** Counter standing for the fresh identifiers and clock readings of `enqueue`. */
    var issued: nat

    ghost predicate Valid()
      reads this
    {
      IdsIncreasing(entries) && forall i :: 0 <= i < |entries| ==> entries[i].entryId < issued
    }

    constructor ()
      ensures Valid() && entries == [] && issued == 0
    {
      entries := [];
      issued := 0;
    }

    /**
     * Append one entry at the back, carrying `task`, `user`, `contextId` and
     * `priority` and an identifier no pending entry has.
     */
    method Enqueue(task: Task, user: string, contextId: Option<string> := None, priority: int := 0) returns (entry: QueueEntry)
      requires Valid()
      modifies this
      ensures Valid()
      ensures entry == QueueEntry(old(issued), task, old(issued), user, contextId, priority)
      ensures entries == old(entries) + [entry]
      ensures forall e :: e in old(entries) ==> e.entryId != entry.entryId
      ensures issued == old(issued) + 1
    {
      entry := QueueEntry(issued, task, issued, user, contextId, priority);
      entries := entries + [entry];
      issued := issued + 1;
    }

    /** Remove and return the front (oldest) entry; `None`, changing nothing, when empty. */
    method Dequeue() returns (e: Option<QueueEntry>)
      requires Valid()
      modifies this
      ensures Valid() && issued == old(issued)
      ensures old(entries) == [] ==> e == None && entries == old(entries)
      ensures old(entries) != [] ==> e == Some(old(entries)[0]) && entries == old(entries)[1..]
    {
      if entries == [] {
        e := None;
      } else {
        e := Some(entries[0]);
        entries := entries[1..];
      }
    }

    /** The entry `Dequeue` would return, without removing it. */
    method Peek() returns (e: Option<QueueEntry>)
      ensures e == if entries == [] then None else Some(entries[0])
    {
      if entries == [] {
        e := None;
      } else {
        e := Some(entries[0]);
      }
    }

    /** Delete the first entry whose identifier is `id`; report whether there was one. */
    method Remove(id: nat) returns (found: bool)
      requires Valid()
      modifies this
      ensures Valid() && issued == old(issued)
      ensures found <==> exists j :: 0 <= j < |old(entries)| && old(entries)[j].entryId == id
      ensures found ==> var k := FirstIndexOf(old(entries), id); entries == old(entries)[..k] + old(entries)[k + 1..]
      ensures !found ==> entries == old(entries)
    {
      var s := entries;
      var i := 0;
      while i < |s|
        invariant 0 <= i <= |s|
        invariant forall j :: 0 <= j < i ==> s[j].entryId != id
      {
        if s[i].entryId == id {
          FirstMatch(s, id, i);
          DropOne(s, i, issued);
          entries := s[..i] + s[i + 1..];
          return true;
        }
        i := i + 1;
      }
      return false;
    }

    /** A snapshot of the pending entries, oldest first. */
    method ListPending() returns (pending: seq<QueueEntry>)
      ensures pending == entries
    {
      pending := entries;
    }

    /** Drop every pending entry. */
    method Clear()
      modifies this
      ensures entries == [] && issued == old(issued)
    {
      entries := [];
    }

    /**
     * Take every entry of context `c` out of the queue, in queue order,
     * leaving the others in their order. queue.py has no such method; the
     * corrected `_execute_next` uses it.
     */
    method DequeueAllForContext(c: string) returns (batch: seq<QueueEntry>)
      requires Valid()
      modifies this
      ensures Valid() && issued == old(issued)
      ensures batch == Select(old(entries), c, true)
      ensures entries == Select(old(entries), c, false)
    {
      var rest;
      batch, rest := Partition(entries, c);
      SelectKeepsOrder(entries, c, false);
      forall j | 0 <= j < |rest| ensures rest[j].entryId < issued {
        assert rest[j] in entries;
      }
      entries := rest;
    }
  }

  /** One pass over `all`, sending each entry of context `c` to `batch` and every other to `rest`. */
  method Partition(all: seq<QueueEntry>, c: string) returns (batch: seq<QueueEntry>, rest: seq<QueueEntry>)
    ensures batch == Select(all, c, true) && rest == Select(all, c, false)
  {
    rest := [];
    batch := [];
    var i := 0;
    while i < |all|
      invariant 0 <= i <= |all|
      invariant batch == Select(all[..i], c, true)
      invariant rest == Select(all[..i], c, false)
    {
      TakeOne(all, i, c, true);
      TakeOne(all, i, c, false);
      if all[i].contextId == Some(c) {
        batch := batch + [all[i]];
      } else {
        rest := rest + [all[i]];
      }
      i := i + 1;
    }
    assert all[..i] == all;
  }

  /** Extending the prefix by one entry extends the selection by that entry exactly when it belongs. */
  lemma TakeOne(s: seq<QueueEntry>, i: nat, c: string, inside: bool)
    requires i < |s|
    ensures Select(s[..i + 1], c, inside)
         == Select(s[..i], c, inside) + (if (s[i].contextId == Some(c)) == inside then [s[i]] else [])
  {
    assert s[..i + 1] == s[..i] + [s[i]];
    SelectAppend(s[..i], [s[i]], c, inside);
    assert [s[i]][1..] == [];
  }

  /** The tasks of a list of entries, in order. */
  function TasksOf(s: seq<QueueEntry>): seq<Task>
  {
    if s == [] then [] else [s[0].task] + TasksOf(s[1..])
  }

  lemma {:induction false} TasksOfSnoc(s: seq<QueueEntry>, e: QueueEntry)
    ensures TasksOf(s + [e]) == TasksOf(s) + [e.task]
  {
    if s != [] {
      assert (s + [e])[1..] == s[1..] + [e];
      TasksOfSnoc(s[1..], e);
    } else {
      assert s + [e] == [e];
    }
  }

  /**
   * Enqueue `tasks` with arbitrary priorities, then dequeue until empty: the
   * tasks come out in the order they went in, whatever their priorities.
   */
  method DequeueOrder(tasks: seq<Task>, priorities: seq<int>) returns (order: seq<Task>)
    requires |priorities| == |tasks|
    ensures order == tasks
  {
    var q := new QPUTaskQueue();
    EnqueueAll(q, tasks, priorities);
    order := DequeueAll(q);
  }

  /** Enqueue each task in turn onto an empty queue. */
  method EnqueueAll(q: QPUTaskQueue, tasks: seq<Task>, priorities: seq<int>)
    requires q.Valid() && q.entries == [] && |priorities| == |tasks|
    modifies q
    ensures q.Valid() && TasksOf(q.entries) == tasks
  {
    var i := 0;
    while i < |tasks|
      invariant 0 <= i <= |tasks|
      invariant q.Valid()
      invariant TasksOf(q.entries) == tasks[..i]
    {
      ghost var before := q.entries;
      var entry := q.Enqueue(tasks[i], "", None, priorities[i]);
      TasksOfSnoc(before, entry);
      assert tasks[..i + 1] == tasks[..i] + [tasks[i]];
      i := i + 1;
    }
    assert tasks[..i] == tasks;
  }

  /** Dequeue until the queue is empty, collecting the tasks in the order they come out. */
  method DequeueAll(q: QPUTaskQueue) returns (order: seq<Task>)
    requires q.Valid()
    modifies q
    ensures q.entries == [] && order == TasksOf(old(q.entries))
  {
    order := [];
    while true
      invariant q.Valid()
      invariant order + TasksOf(q.entries) == TasksOf(old(q.entries))
      decreases |q.entries|
    {
      ghost var before := q.entries;
      var e := q.Dequeue();
      if e.None? {
        break;
      }
      assert TasksOf(before) == [e.value.task] + TasksOf(q.entries);
      order := order + [e.value.task];
    }
  }

}
