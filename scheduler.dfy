/** The reminder scheduler: which instants a proposal's reminders fire at
    (`schedule_reminders`), and the job table that tracks them (`SCHEDULED_JOBS`, with
    the job queue its handles point into). */
module Scheduler {
  import opened Ids

  /** Offsets are configured in hours; instants are seconds. */
  const HOUR: int := 3600

  /** `t + timedelta(hours=hours)`, in seconds. */
  function HoursLater(t: int, hours: int): int
  {
    t + hours * HOUR
  }

  /** `t - timedelta(hours=hours)`, in seconds. */
  function HoursEarlier(t: int, hours: int): int
  {
    t - hours * HOUR
  }

  /** The offsets a pair's reminders are computed from. */
  datatype Intervals = Intervals(fromStart: seq<int>, beforeEnd: seq<int>)

  /** A (chat, proposal) pair, the key of the job table. */
  type Key = (ChatId, ProposalId)

  /** A job handed to the job queue (`run_once`): whom it reminds of what, when, and
      whether its removal has been scheduled. */
  datatype Job = Job(chat: ChatId, proposal: ProposalId, when: int, removed: bool)

  function KeyOf(j: Job): Key
  {
    (j.chat, j.proposal)
  }

  // ---------------------------------------------------------------------------
  // Firing times

  /** `start + timedelta(hours=h)` for each from-start offset, in order. */
  function StartTimes(start: int, offsets: seq<int>): (ts: seq<int>)
    ensures |ts| == |offsets|
  {
    seq(|offsets|, i requires 0 <= i < |offsets| => HoursLater(start, offsets[i]))
  }

  /** `end - timedelta(hours=h)` for each before-end offset, in order. */
  function EndTimes(end: int, offsets: seq<int>): (ts: seq<int>)
    ensures |ts| == |offsets|
  {
    seq(|offsets|, i requires 0 <= i < |offsets| => HoursEarlier(end, offsets[i]))
  }

  /** The instants of ts, in order, that are not strictly before now (`if when < now:
      continue`). */
  function Upcoming(ts: seq<int>, now: int): (r: seq<int>)
    ensures |r| <= |ts|
    ensures forall k :: 0 <= k < |r| ==> r[k] >= now
  {
    if ts == [] then []
    else
      var last := ts[|ts| - 1];
      Upcoming(ts[..|ts| - 1], now) + (if last < now then [] else [last])
  }

  /** Every instant at or after now is kept as often as it occurs; every earlier one is
      dropped. */
  lemma {:induction false} UpcomingCount(ts: seq<int>, now: int, t: int)
    ensures multiset(Upcoming(ts, now))[t] == if t < now then 0 else multiset(ts)[t]
  {
    if ts != [] {
      var last := ts[|ts| - 1];
      assert ts == ts[..|ts| - 1] + [last];
      UpcomingCount(ts[..|ts| - 1], now, t);
    }
  }

  lemma {:induction false} UpcomingKeepsFuture(ts: seq<int>, now: int)
    requires forall k :: 0 <= k < |ts| ==> ts[k] >= now
    ensures Upcoming(ts, now) == ts
  {
    if ts != [] {
      UpcomingKeepsFuture(ts[..|ts| - 1], now);
      assert ts == ts[..|ts| - 1] + [ts[|ts| - 1]];
    }
  }

  /** The instants `schedule_reminders` registers a job for: from-start ones first, in
      configuration order, then before-end ones. */
  function FiringTimes(start: int, end: int, now: int, iv: Intervals): (ts: seq<int>)
    ensures |ts| <= |iv.fromStart| + |iv.beforeEnd|
    ensures forall k :: 0 <= k < |ts| ==> ts[k] >= now
  {
    Upcoming(StartTimes(start, iv.fromStart), now) + Upcoming(EndTimes(end, iv.beforeEnd), now)
  }

  /** Dropping past instants works piece by piece: the instants kept keep their order. */
  lemma {:induction false} UpcomingConcat(a: seq<int>, b: seq<int>, now: int)
    ensures Upcoming(a + b, now) == Upcoming(a, now) + Upcoming(b, now)
  {
    if b == [] {
      assert a + b == a;
    } else {
      var b' := b[..|b| - 1];
      assert (a + b)[..|a + b| - 1] == a + b';
      UpcomingConcat(a, b', now);
    }
  }

  /** The firing instants are the configured instants, from-start ones first, in
      configuration order, with the past ones left out. */
  lemma FiringTimesInOrder(start: int, end: int, now: int, iv: Intervals)
    ensures FiringTimes(start, end, now, iv)
            == Upcoming(StartTimes(start, iv.fromStart) + EndTimes(end, iv.beforeEnd), now)
  {
    UpcomingConcat(StartTimes(start, iv.fromStart), EndTimes(end, iv.beforeEnd), now);
  }

  /** A proposal whose start lies before the instant reminders are scheduled at gets no
      reminder at offset 0 from its start, nor at any offset that still falls before
      that instant. */
  lemma EarlyStartDropsOffset(start: int, end: int, now: int, iv: Intervals, h: int)
    requires h in iv.fromStart && HoursLater(start, h) < now
    ensures multiset(FiringTimes(start, end, now, iv))[HoursLater(start, h)] == 0
  {
    FiringTimesExact(start, end, now, iv, HoursLater(start, h));
  }

  /** One firing per offset whose instant is not before now, and none for the others:
      an instant occurs as often as offsets produce it, so equal instants are not
      merged. */
  lemma FiringTimesExact(start: int, end: int, now: int, iv: Intervals, t: int)
    ensures multiset(FiringTimes(start, end, now, iv))[t]
            == if t < now then 0
               else multiset(StartTimes(start, iv.fromStart))[t] + multiset(EndTimes(end, iv.beforeEnd))[t]
  {
    UpcomingCount(StartTimes(start, iv.fromStart), now, t);
    UpcomingCount(EndTimes(end, iv.beforeEnd), now, t);
  }

  /** When no offset lies in the past, every offset fires, in configuration order. */
  lemma FiringTimesAllUpcoming(start: int, end: int, now: int, iv: Intervals)
    requires forall h :: h in iv.fromStart ==> HoursLater(start, h) >= now
    requires forall h :: h in iv.beforeEnd ==> HoursEarlier(end, h) >= now
    ensures FiringTimes(start, end, now, iv) == StartTimes(start, iv.fromStart) + EndTimes(end, iv.beforeEnd)
  {
    var s := StartTimes(start, iv.fromStart);
    var e := EndTimes(end, iv.beforeEnd);
    assert forall k :: 0 <= k < |s| ==> iv.fromStart[k] in iv.fromStart;
    assert forall k :: 0 <= k < |e| ==> iv.beforeEnd[k] in iv.beforeEnd;
    UpcomingKeepsFuture(s, now);
    UpcomingKeepsFuture(e, now);
  }

  /** Offsets [0] from start and [1] before end on a four-hour proposal starting now
      give a reminder now and one three hours later. */
  lemma DefaultScenario(now: int)
    ensures FiringTimes(now, now + 4 * HOUR, now, Intervals([0], [1])) == [now, now + 3 * HOUR]
  {
    FiringTimesAllUpcoming(now, now + 4 * HOUR, now, Intervals([0], [1]));
  }

  // ---------------------------------------------------------------------------
  // Jobs, handles and the table

  /** The live jobs `run_once` creates for key at the instants ts, in order. */
  function FreshJobs(key: Key, ts: seq<int>): (js: seq<Job>)
    ensures |js| == |ts|
  {
    seq(|ts|, i requires 0 <= i < |ts| => Job(key.0, key.1, ts[i], false))
  }

  /** The handles of n jobs appended to a queue of length lo. */
  function Handles(lo: nat, n: nat): (hs: seq<nat>)
    ensures |hs| == n
  {
    seq(n, i requires 0 <= i < n => lo + i)
  }

  /** The jobs a list of handles refers to. */
  function Listed(q: seq<Job>, hs: seq<nat>): (js: seq<Job>)
    requires forall k :: 0 <= k < |hs| ==> hs[k] < |q|
    ensures |js| == |hs|
  {
    seq(|hs|, k requires 0 <= k < |hs| => q[hs[k]])
  }

  /** The queue after `schedule_removal` on every job of hs that is not yet removed. */
  function Cancelled(q: seq<Job>, hs: seq<nat>): (r: seq<Job>)
    ensures |r| == |q|
  {
    seq(|q|, i requires 0 <= i < |q| => if i in hs then q[i].(removed := true) else q[i])
  }

  /** The handles of the jobs that will still fire for key. */
  function LiveJobs(q: seq<Job>, key: Key): set<nat>
  {
    set i | 0 <= i < |q| && !q[i].removed && KeyOf(q[i]) == key
  }

  /** Every handle in the table points into the queue, at a job of its own key. */
  predicate WellFormed(q: seq<Job>, t: map<Key, seq<nat>>)
  {
    forall key, k :: key in t && 0 <= k < |t[key]| ==> t[key][k] < |q| && KeyOf(q[t[key][k]]) == key
  }

  /** Every job that will still fire is listed under its key: nothing is orphaned. */
  predicate AllTracked(q: seq<Job>, t: map<Key, seq<nat>>)
  {
    forall i :: 0 <= i < |q| && !q[i].removed ==> KeyOf(q[i]) in t && i in t[KeyOf(q[i])]
  }

  /** Scheduling removal twice is the same as once. */
  lemma CancelledIdempotent(q: seq<Job>, hs: seq<nat>)
    ensures Cancelled(Cancelled(q, hs), hs) == Cancelled(q, hs)
  {
  }

  /** Cancelling a pair's listed jobs and dropping its entry leaves no job of the pair
      that will fire, touches no other pair's jobs, and keeps every other job tracked. */
  lemma CancelClearsPair(q: seq<Job>, t: map<Key, seq<nat>>, key: Key)
    requires WellFormed(q, t) && AllTracked(q, t) && key in t
    ensures LiveJobs(Cancelled(q, t[key]), key) == {}
    ensures forall k :: k != key ==> LiveJobs(Cancelled(q, t[key]), k) == LiveJobs(q, k)
    ensures WellFormed(Cancelled(q, t[key]), t - {key})
    ensures AllTracked(Cancelled(q, t[key]), t - {key})
  {
    var r := Cancelled(q, t[key]);
    CancelTouchesOnlyPair(q, t, key);
    forall i | 0 <= i < |r| && !r[i].removed
      ensures KeyOf(r[i]) != key && KeyOf(r[i]) in t - {key} && i in (t - {key})[KeyOf(r[i])]
    {
      assert i !in t[key];
    }
    assert LiveJobs(r, key) == {} by {
      forall i | i in LiveJobs(r, key) ensures false {
      }
    }
    forall k | k != key
      ensures LiveJobs(r, k) == LiveJobs(q, k)
    {
    }
    assert WellFormed(r, t - {key}) by {
      forall k, h | k in t - {key} && h in (t - {key})[k]
        ensures h < |r| && KeyOf(r[h]) == k
      {
        assert h in t[k];
      }
    }
  }

  lemma CancelTouchesOnlyPair(q: seq<Job>, t: map<Key, seq<nat>>, key: Key)
    requires WellFormed(q, t) && key in t
    ensures forall i :: 0 <= i < |q| && KeyOf(q[i]) != key ==> Cancelled(q, t[key])[i] == q[i]
    ensures forall i :: 0 <= i < |q| ==> KeyOf(Cancelled(q, t[key])[i]) == KeyOf(q[i])
  {
    forall i | 0 <= i < |q| && KeyOf(q[i]) != key
      ensures i !in t[key]
    {
    }
  }

  /** Registering fresh jobs for a pair over its old list keeps the table well formed,
      and leaves every job tracked exactly when the pair had no job still to fire: the
      overwrite in `schedule_reminders` orphans any live job the pair had. */
  lemma ScheduleTracking(q: seq<Job>, t: map<Key, seq<nat>>, key: Key, ts: seq<int>)
    requires WellFormed(q, t) && AllTracked(q, t)
    ensures WellFormed(q + FreshJobs(key, ts), t[key := Handles(|q|, |ts|)])
    ensures AllTracked(q + FreshJobs(key, ts), t[key := Handles(|q|, |ts|)]) <==> LiveJobs(q, key) == {}
  {
    var q' := q + FreshJobs(key, ts);
    var t' := t[key := Handles(|q|, |ts|)];
    forall k, h | k in t' && h in t'[k]
      ensures h < |q'| && KeyOf(q'[h]) == k
    {
      if k == key {
        var i :| 0 <= i < |ts| && Handles(|q|, |ts|)[i] == h;
        assert q'[h] == FreshJobs(key, ts)[i];
      } else {
        assert q'[h] == q[h];
      }
    }
    if LiveJobs(q, key) == {} {
      forall i | 0 <= i < |q'| && !q'[i].removed
        ensures KeyOf(q'[i]) in t' && i in t'[KeyOf(q'[i])]
      {
        if i < |q| {
          assert i !in LiveJobs(q, key);
        } else {
          assert Handles(|q|, |ts|)[i - |q|] == i;
        }
      }
    } else {
      var i :| i in LiveJobs(q, key);
      assert q'[i] == q[i];
      assert i !in Handles(|q|, |ts|);
    }
  }

  /** Appending one job to a pair's list (the `remind_in` path) keeps every job tracked
      and adds exactly that job to the pair's live jobs: the older ones stay live. */
  lemma AddTracking(q: seq<Job>, t: map<Key, seq<nat>>, key: Key, when: int)
    requires WellFormed(q, t) && AllTracked(q, t)
    ensures var t' := t[key := (if key in t then t[key] else []) + [|q|]];
            var q' := q + [Job(key.0, key.1, when, false)];
            WellFormed(q', t') && AllTracked(q', t') && LiveJobs(q', key) == LiveJobs(q, key) + {|q|}
  {
    var t' := t[key := (if key in t then t[key] else []) + [|q|]];
    var q' := q + [Job(key.0, key.1, when, false)];
    forall k, h | k in t' && h in t'[k]
      ensures h < |q'| && KeyOf(q'[h]) == k
    {
      if k == key && h != |q| {
        assert h in t[key];
      }
    }
    forall i | 0 <= i < |q'| && !q'[i].removed
      ensures KeyOf(q'[i]) in t' && i in t'[KeyOf(q'[i])]
    {
      if i < |q| {
        assert q'[i] == q[i];
      }
    }
    assert forall i :: i in LiveJobs(q', key) <==> i in LiveJobs(q, key) || i == |q|;
  }

  /** The pair's list in t names exactly the jobs FreshJobs(key, ts), one distinct job
      per instant: equal instants are separate jobs. */
  predicate ListsExactly(q: seq<Job>, t: map<Key, seq<nat>>, key: Key, ts: seq<int>)
  {
    && key in t
    && (forall k :: 0 <= k < |t[key]| ==> t[key][k] < |q|)
    && (forall k, l :: 0 <= k < l < |t[key]| ==> t[key][k] != t[key][l])
    && Listed(q, t[key]) == FreshJobs(key, ts)
  }

  /** The handles `schedule_reminders` stores for a pair name exactly the jobs it
      created. */
  lemma ListedFresh(q: seq<Job>, key: Key, ts: seq<int>)
    ensures Listed(q + FreshJobs(key, ts), Handles(|q|, |ts|)) == FreshJobs(key, ts)
  {
  }

  /** Handles into a queue keep naming the same jobs as the queue grows. */
  lemma ListedPrefix(q: seq<Job>, q': seq<Job>, hs: seq<nat>)
    requires |q| <= |q'| && q'[..|q|] == q
    requires forall k :: 0 <= k < |hs| ==> hs[k] < |q|
    ensures Listed(q', hs) == Listed(q, hs)
  {
    forall k | 0 <= k < |hs|
      ensures q'[hs[k]] == q[hs[k]]
    {
      assert q'[..|q|][hs[k]] == q'[hs[k]];
    }
  }

  lemma HandlesConcat(lo: nat, m: nat, n: nat)
    ensures Handles(lo, m) + Handles(lo + m, n) == Handles(lo, m + n)
  {
  }

  lemma FreshJobsConcat(key: Key, a: seq<int>, b: seq<int>)
    ensures FreshJobs(key, a) + FreshJobs(key, b) == FreshJobs(key, a + b)
  {
  }

  lemma AppendHandle(lo: nat, n: nat)
    ensures Handles(lo, n) + [lo + n] == Handles(lo, n + 1)
  {
  }

  lemma AppendFreshJob(key: Key, ts: seq<int>, t: int)
    ensures FreshJobs(key, ts) + [Job(key.0, key.1, t, false)] == FreshJobs(key, ts + [t])
  {
  }

  /** `SCHEDULED_JOBS` together with the job queue its entries point into. */
  class JobTable {
    /** Every job handed to the job queue, in creation order. */
    var queue: seq<Job>
    /** `SCHEDULED_JOBS[chat][proposal]`: the handles of the pair's jobs. */
    var table: map<Key, seq<nat>>

    ghost predicate Valid()
      reads this
    {
      WellFormed(queue, table)
    }

    constructor ()
      ensures Valid() && queue == [] && table == map[]
    {
      queue := [];
      table := map[];
    }

    /** `schedule_reminders`: reset the pair's list to empty (without cancelling what it
        held), then register one job per upcoming from-start instant and one per upcoming
        before-end instant, in that order. */
    method ScheduleReminders(chat: ChatId, proposal: ProposalId, start: int, end: int, now: int, iv: Intervals)
      requires Valid()
      modifies this
      ensures Valid()
      ensures queue == old(queue) + FreshJobs((chat, proposal), FiringTimes(start, end, now, iv))
      ensures table == old(table)[(chat, proposal) := Handles(|old(queue)|, |FiringTimes(start, end, now, iv)|)]
    {
      var key := (chat, proposal);
      ghost var q0, t0 := queue, table;
      ghost var fromStart := Upcoming(StartTimes(start, iv.fromStart), now);
      ghost var beforeEnd := Upcoming(EndTimes(end, iv.beforeEnd), now);
      table := table[key := []];
      RegisterUpcoming(chat, proposal, StartTimes(start, iv.fromStart), now);
      assert [] + Handles(|q0|, |fromStart|) == Handles(|q0|, |fromStart|);
      assert table == t0[key := Handles(|q0|, |fromStart|)];
      ghost var q1 := queue;
      RegisterUpcoming(chat, proposal, EndTimes(end, iv.beforeEnd), now);
      HandlesConcat(|q0|, |fromStart|, |beforeEnd|);
      FreshJobsConcat(key, fromStart, beforeEnd);
      assert queue == q0 + (FreshJobs(key, fromStart) + FreshJobs(key, beforeEnd));
    }

    /** One loop of `schedule_reminders`: a job appended to the pair's list for every
        instant of times that is not before now, skipping the others. */
    method RegisterUpcoming(chat: ChatId, proposal: ProposalId, times: seq<int>, now: int)
      requires Valid() && (chat, proposal) in table
      modifies this
      ensures Valid()
      ensures queue == old(queue) + FreshJobs((chat, proposal), Upcoming(times, now))
      ensures table == old(table)[(chat, proposal) :=
                old(table)[(chat, proposal)] + Handles(|old(queue)|, |Upcoming(times, now)|)]
    {
      var key := (chat, proposal);
      assert old(table)[key] + Handles(|old(queue)|, 0) == old(table)[key];
      assert times[..0] == [];
      for i := 0 to |times|
        invariant Valid()
        invariant queue == old(queue) + FreshJobs(key, Upcoming(times[..i], now))
        invariant table == old(table)[key := old(table)[key] + Handles(|old(queue)|, |Upcoming(times[..i], now)|)]
      {
        var when := times[i];
        assert times[..i + 1][..i] == times[..i];
        assert Upcoming(times[..i + 1], now) == Upcoming(times[..i], now) + (if when < now then [] else [when]);
        if when >= now {
          ghost var done := Upcoming(times[..i], now);
          AppendHandle(|old(queue)|, |done|);
          AppendFreshJob(key, done, when);
          AddReminder(chat, proposal, when);
          assert old(table)[key] + Handles(|old(queue)|, |done|) + [|old(queue)| + |done|]
              == old(table)[key] + Handles(|old(queue)|, |done| + 1);
        }
      }
      assert times[..|times|] == times;
    }

    /** `cancel_scheduled_reminders`: schedule the removal of every listed job of the pair
        that is not removed yet, then delete the pair's entry; nothing happens for a pair
        without an entry, so a second call changes nothing. */
    method CancelScheduledReminders(chat: ChatId, proposal: ProposalId)
      requires Valid()
      modifies this
      ensures Valid()
      ensures table == old(table) - {(chat, proposal)}
      ensures queue == if (chat, proposal) in old(table) then Cancelled(old(queue), old(table)[(chat, proposal)])
                       else old(queue)
    {
      var key := (chat, proposal);
      if key in table {
        var jobs := table[key];
        assert forall h :: h in jobs ==> h < |queue|;
        for k := 0 to |jobs|
          invariant queue == Cancelled(old(queue), jobs[..k])
          invariant table == old(table)
        {
          var h := jobs[k];
          assert h in jobs;
          assert jobs[..k + 1] == jobs[..k] + [h];
          if !queue[h].removed {
            queue := queue[h := queue[h].(removed := true)];
          }
        }
        assert jobs[..|jobs|] == jobs;
        table := table - {key};
        forall k, h | k in table && h in table[k]
          ensures h < |queue| && KeyOf(queue[h]) == k
        {
          assert h in old(table)[k];
        }
      }
    }

    /** The `remind_in` registration: one job at `when` appended to the pair's list,
        which is created empty if missing; the jobs already listed are kept. */
    method AddReminder(chat: ChatId, proposal: ProposalId, when: int)
      requires Valid()
      modifies this
      ensures Valid()
      ensures queue == old(queue) + [Job(chat, proposal, when, false)]
      ensures table == old(table)[(chat, proposal) :=
                (if (chat, proposal) in old(table) then old(table)[(chat, proposal)] else []) + [|old(queue)|]]
    {
      var key := (chat, proposal);
      if key !in table {
        table := table[key := []];
      }
      queue := queue + [Job(chat, proposal, when, false)];
      table := table[key := table[key] + [|queue| - 1]];
      forall k, h | k in table && h in table[k]
        ensures h < |queue| && KeyOf(queue[h]) == k
      {
        if h != |queue| - 1 {
          assert h in old(table)[k];
        }
      }
    }
  }
}
