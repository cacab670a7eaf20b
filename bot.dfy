/** The bot itself: the persisted preferences, short-id map and known-proposal set, the
    in-memory job table, and the handlers that change them. */
module Bot {
  import opened Wrappers
  import opened Ids
  import opened Text
  import opened Numerals
  import opened Callbacks
  import opened ShortIds
  import opened Scheduler
  import opened Preferences
  import opened Sources

  /** What a button press asks of the bot once its payload is decoded and its short id
      resolved. */
  datatype Effect =
    | NoEffect                                 // error reply, unknown action, or an exception
    | MarkVoted(proposal: ProposalId)
    | Snooze(proposal: ProposalId, hours: int)

  /** The decision `button_callback` takes for a payload: a short id the reversed map
      does not know, an unknown action, a missing field or an hours field that is not a
      number all leave the state alone. */
  function Interpret(m: IdMap, data: string): (e: Effect)
    ensures e != NoEffect ==>
              && !Decode(data).Malformed? && !Decode(data).Unknown?
              && Resolve(m, Decode(data).sid) == Some(e.proposal)
    ensures e.MarkVoted? <==> Decode(data).Voted? && Resolve(m, Decode(data).sid).Some?
    ensures e.Snooze? ==> Decode(data) == RemindIn(Decode(data).sid, Some(e.hours))
    ensures Decode(data).RemindIn? && Decode(data).hours.Some? && Resolve(m, Decode(data).sid).Some? ==>
              e == Snooze(Resolve(m, Decode(data).sid).value, Decode(data).hours.value)
  {
    match Decode(data)
    case Voted(sid) =>
      (match Resolve(m, sid) case None => NoEffect case Some(p) => MarkVoted(p))
    case RemindIn(sid, hours) =>
      (match Resolve(m, sid)
       case None => NoEffect
       case Some(p) => if hours.Some? then Snooze(p, hours.value) else NoEffect)
    case _ => NoEffect
  }

  /** Pressing any button sent for a proposal acts on that proposal: "voted" marks it and
      "remind in h hours" snoozes it by h, as long as short ids are not shared. */
  lemma ButtonsAct(m: IdMap, pid: ProposalId, sid: ShortId, buttonHours: seq<int>, k: nat)
    requires UniqueShortIds(m) && ShortIdOf(m, pid) == Some(sid) && '|' !in sid
    requires k < 1 + |buttonHours|
    ensures Interpret(m, CreateInlineButtons(sid, buttonHours)[k])
            == if k == 0 then MarkVoted(pid) else Snooze(pid, buttonHours[k - 1])
  {
    ButtonsDecode(sid, buttonHours, k);
    ResolveInvertsShortIdOf(m, pid, sid);
  }

  /** A payload whose short id the map does not hold does nothing, whatever its action. */
  lemma UnknownShortIdInert(m: IdMap, data: string)
    requires |Split(data, '|')| >= 2
    requires forall i :: 0 <= i < |m| ==> m[i].1 != Split(data, '|')[1]
    ensures Interpret(m, data) == NoEffect
  {
  }

  /** Every tracked pair has a preferences entry: jobs are only registered for a pair
      after its entry is written. */
  predicate TableWithinPrefs(t: map<Key, seq<nat>>, prefs: Reminders)
  {
    forall key :: key in t ==> key.0 in prefs && key.1 in prefs[key.0]
  }

  /** A pair that is not in the table has no job left to fire, in a table that tracks
      every live job. */
  lemma UntrackedPairIdle(q: seq<Job>, t: map<Key, seq<nat>>, key: Key)
    requires AllTracked(q, t) && key !in t
    ensures LiveJobs(q, key) == {}
  {
  }

  /** The pairs `handle_new_proposal` schedules for: a registered chat with no entry
      for the proposal. */
  predicate NewPair(prefs: Reminders, proposal: ProposalId, key: Key)
  {
    key.1 == proposal && key.0 in prefs && proposal !in prefs[key.0]
  }

  /** Every job appended to q0 to make q will still fire and is listed in t under its
      own pair, a new pair for the proposal: nothing else was appended. */
  predicate AppendedListed(q0: seq<Job>, q: seq<Job>, t: map<Key, seq<nat>>, snapshot: Reminders,
                           proposal: ProposalId)
  {
    forall i: nat :: |q0| <= i < |q| ==>
      && !q[i].removed
      && NewPair(snapshot, proposal, KeyOf(q[i]))
      && KeyOf(q[i]) in t
      && i in t[KeyOf(q[i])]
  }

  /** How far `handle_new_proposal`'s loop has got with the chats still in todo: the
      visited chats that had no entry have a None entry and their pair's list holds
      exactly the jobs at ts; the queue has only grown and no other list has changed. */
  ghost predicate Progress(prefs: Reminders, q: seq<Job>, t: map<Key, seq<nat>>,
                           snapshot: Reminders, proposal: ProposalId, todo: set<ChatId>,
                           q0: seq<Job>, t0: map<Key, seq<nat>>, ts: seq<int>, nothingNew: bool)
  {
    && todo <= snapshot.Keys
    && prefs.Keys == snapshot.Keys
    && (forall c :: c in snapshot ==>
          prefs[c] == if c in todo then snapshot[c] else PendingEntry(snapshot[c], proposal))
    && |q0| <= |q| && q[..|q0|] == q0
    && (forall key :: key in t <==> key in t0 || (NewPair(snapshot, proposal, key) && key.0 !in todo))
    && (forall key :: key in t0 ==> t[key] == t0[key])
    && (forall c :: NewPair(snapshot, proposal, (c, proposal)) && c !in todo ==> ListsExactly(q, t, (c, proposal), ts))
    && AppendedListed(q0, q, t, snapshot, proposal)
    && (nothingNew ==> q == q0 && t == t0)
  }

  /** Visiting a chat that already has an entry changes nothing. */
  lemma ProgressSkip(prefs: Reminders, q: seq<Job>, t: map<Key, seq<nat>>,
                     snapshot: Reminders, proposal: ProposalId, todo: set<ChatId>, chat: ChatId,
                     q0: seq<Job>, t0: map<Key, seq<nat>>, ts: seq<int>, nothingNew: bool)
    requires Progress(prefs, q, t, snapshot, proposal, todo, q0, t0, ts, nothingNew)
    requires chat in todo && proposal in prefs[chat]
    ensures Progress(prefs, q, t, snapshot, proposal, todo - {chat}, q0, t0, ts, nothingNew)
  {
  }

  /** Visiting a chat without an entry: the None entry and the fresh list keep the
      loop's bookkeeping. */
  lemma ProgressAdd(prefs: Reminders, q: seq<Job>, t: map<Key, seq<nat>>,
                    snapshot: Reminders, proposal: ProposalId, todo: set<ChatId>, chat: ChatId,
                    q0: seq<Job>, t0: map<Key, seq<nat>>, ts: seq<int>, nothingNew: bool)
    requires Progress(prefs, q, t, snapshot, proposal, todo, q0, t0, ts, nothingNew)
    requires nothingNew == forall c :: c in snapshot ==> proposal in snapshot[c]
    requires TableWithinPrefs(t, prefs) && chat in todo && proposal !in prefs[chat]
    ensures Progress(prefs[chat := prefs[chat][proposal := Pending]],
                     q + FreshJobs((chat, proposal), ts), t[(chat, proposal) := Handles(|q|, |ts|)],
                     snapshot, proposal, todo - {chat}, q0, t0, ts, nothingNew)
  {
    var key := (chat, proposal);
    var prefs' := prefs[chat := prefs[chat][proposal := Pending]];
    var q', t' := q + FreshJobs(key, ts), t[key := Handles(|q|, |ts|)];
    assert key !in t;
    assert q'[..|q0|] == q0 by {
      assert q'[..|q|] == q;
    }
    forall c | c in snapshot
      ensures prefs'[c] == if c in todo - {chat} then snapshot[c] else PendingEntry(snapshot[c], proposal)
    {
    }
    forall key' | key' in t'
      ensures key' in t0 || (NewPair(snapshot, proposal, key') && key'.0 !in todo - {chat})
    {
    }
    ListsAfterAdd(q, t, snapshot, proposal, todo, chat, ts);
    AppendedAfterAdd(q0, q, t, snapshot, proposal, chat, ts);
    assert nothingNew ==> q == q0 && t == t0;
    assert !nothingNew by {
      assert chat in snapshot && proposal !in snapshot[chat];
    }
  }

  /** The lists the loop has built survive the next chat's jobs, and the next chat's
      list holds exactly its own. */
  lemma ListsAfterAdd(q: seq<Job>, t: map<Key, seq<nat>>, snapshot: Reminders, proposal: ProposalId,
                      todo: set<ChatId>, chat: ChatId, ts: seq<int>)
    requires forall c :: NewPair(snapshot, proposal, (c, proposal)) && c !in todo ==> ListsExactly(q, t, (c, proposal), ts)
    requires (chat, proposal) !in t
    ensures forall c :: NewPair(snapshot, proposal, (c, proposal)) && c !in todo - {chat} ==>
              ListsExactly(q + FreshJobs((chat, proposal), ts), t[(chat, proposal) := Handles(|q|, |ts|)],
                           (c, proposal), ts)
  {
    var key := (chat, proposal);
    var q', t' := q + FreshJobs(key, ts), t[key := Handles(|q|, |ts|)];
    forall c | NewPair(snapshot, proposal, (c, proposal)) && c !in todo - {chat}
      ensures ListsExactly(q', t', (c, proposal), ts)
    {
      if c == chat {
        ListedFresh(q, key, ts);
      } else {
        assert q'[..|q|] == q;
        ListedPrefix(q, q', t[(c, proposal)]);
      }
    }
  }

  /** The next chat's jobs are appended live and listed under its new pair, and the
      jobs appended before them stay so. */
  lemma AppendedAfterAdd(q0: seq<Job>, q: seq<Job>, t: map<Key, seq<nat>>, snapshot: Reminders,
                         proposal: ProposalId, chat: ChatId, ts: seq<int>)
    requires AppendedListed(q0, q, t, snapshot, proposal)
    requires (chat, proposal) !in t && NewPair(snapshot, proposal, (chat, proposal))
    ensures AppendedListed(q0, q + FreshJobs((chat, proposal), ts), t[(chat, proposal) := Handles(|q|, |ts|)],
                           snapshot, proposal)
  {
    var key := (chat, proposal);
    var q', t' := q + FreshJobs(key, ts), t[key := Handles(|q|, |ts|)];
    forall i: nat | |q0| <= i < |q'|
      ensures !q'[i].removed && NewPair(snapshot, proposal, KeyOf(q'[i])) && KeyOf(q'[i]) in t'
      ensures i in t'[KeyOf(q'[i])]
    {
      if i < |q| {
        assert q'[i] == q[i];
        assert KeyOf(q[i]) != key;
      } else {
        assert q'[i] == Job(chat, proposal, ts[i - |q|], false);
        assert Handles(|q|, |ts|)[i - |q|] == i;
      }
    }
  }

  /** What `handle_new_proposal` does to the jobs, from the queue q0 and the
      preferences prefs it started with: every new pair is listed with exactly the
      jobs at ts, and nothing but their jobs was appended. */
  ghost predicate NewPairsScheduled(q0: seq<Job>, q: seq<Job>, t: map<Key, seq<nat>>, prefs: Reminders,
                                    proposal: ProposalId, ts: seq<int>)
  {
    && (forall c :: NewPair(prefs, proposal, (c, proposal)) ==> ListsExactly(q, t, (c, proposal), ts))
    && AppendedListed(q0, q, t, prefs, proposal)
  }

  /** Once every chat is visited, the loop has done what `handle_new_proposal`
      promises. */
  lemma ProgressDone(prefs: Reminders, q: seq<Job>, t: map<Key, seq<nat>>,
                     snapshot: Reminders, proposal: ProposalId,
                     q0: seq<Job>, t0: map<Key, seq<nat>>, ts: seq<int>, nothingNew: bool)
    requires Progress(prefs, q, t, snapshot, proposal, {}, q0, t0, ts, nothingNew)
    ensures prefs == MarkPending(snapshot, proposal)
    ensures forall key :: key in t <==> key in t0 || NewPair(snapshot, proposal, key)
    ensures NewPairsScheduled(q0, q, t, snapshot, proposal, ts)
  {
  }

  /** The pairs a run of `handle_new_proposal` calls for the proposals ps schedules
      for: a chat registered beforehand without an entry for one of them. */
  predicate ScheduledFor(prefs: Reminders, ps: seq<ProposalId>, key: Key)
  {
    key.0 in prefs && key.1 !in prefs[key.0] && key.1 in ps
  }

  /** Handling one more proposal of a run adds exactly the pairs of the chats that had
      no entry for it before the run began. */
  lemma ScheduledForStep(prefs0: Reminders, ps: seq<ProposalId>, proposal: ProposalId,
                         t0: map<Key, seq<nat>>, t: map<Key, seq<nat>>, t': map<Key, seq<nat>>)
    requires forall key :: key in t <==> key in t0 || ScheduledFor(prefs0, ps, key)
    requires forall key :: key in t' <==> key in t || NewPair(MarkPendingAll(prefs0, ps), proposal, key)
    ensures forall key :: key in t' <==> key in t0 || ScheduledFor(prefs0, ps + [proposal], key)
  {
    var prefs := MarkPendingAll(prefs0, ps);
    forall key
      ensures NewPair(prefs, proposal, key) <==>
                key.1 == proposal && key.0 in prefs0 && proposal !in prefs0[key.0] && proposal !in ps
    {
      if key.0 in prefs0 {
        assert EntriesExtended(prefs0[key.0], (set p | p in ps), prefs[key.0]);
      }
    }
  }

  /** What a run of `handle_new_proposal` calls for the proposals ps has done to the
      state (prefs0, ids0, q0, t0) it started from: every registered chat has an entry
      for each of them, each has a short id and no short id changed, the queue has only
      grown, and the table holds the old lists unchanged plus a list for exactly the
      pairs scheduled. */
  ghost predicate RunSoFar(prefs0: Reminders, ids0: IdMap, q0: seq<Job>, t0: map<Key, seq<nat>>,
                           ps: seq<ProposalId>,
                           prefs: Reminders, ids: IdMap, q: seq<Job>, t: map<Key, seq<nat>>)
  {
    && prefs == MarkPendingAll(prefs0, ps)
    && (forall p :: p in ps ==> ShortIdOf(ids, p).Some?)
    && (forall p :: ShortIdOf(ids0, p).Some? ==> ShortIdOf(ids, p) == ShortIdOf(ids0, p))
    && |q0| <= |q| && q[..|q0|] == q0
    && (forall key :: key in t <==> key in t0 || ScheduledFor(prefs0, ps, key))
    && (forall key :: key in t0 ==> t[key] == t0[key])
  }

  /** A run extended by one `handle_new_proposal` call, given what that call promises
      about the state before and after it. */
  lemma RunSoFarStep(prefs0: Reminders, ids0: IdMap, q0: seq<Job>, t0: map<Key, seq<nat>>,
                     ps: seq<ProposalId>,
                     prefs: Reminders, ids: IdMap, q: seq<Job>, t: map<Key, seq<nat>>,
                     proposal: ProposalId, token: ShortId,
                     prefs': Reminders, ids': IdMap, q': seq<Job>, t': map<Key, seq<nat>>)
    requires RunSoFar(prefs0, ids0, q0, t0, ps, prefs, ids, q, t)
    requires prefs' == MarkPending(prefs, proposal) && ids' == AssignShortId(ids, proposal, token)
    requires |q| <= |q'| && q'[..|q|] == q
    requires forall key :: key in t' <==> key in t || NewPair(prefs, proposal, key)
    requires forall key :: key in t ==> t'[key] == t[key]
    ensures RunSoFar(prefs0, ids0, q0, t0, ps + [proposal], prefs', ids', q', t')
  {
    PendingAllStep(prefs0, ps, proposal);
    ShortIdsStep(ids0, ps, ids, proposal, token);
    ScheduledForStep(prefs0, ps, proposal, t0, t, t');
    assert q'[..|q0|] == q0 by {
      assert q'[..|q0|] == q[..|q0|];
    }
  }

  /** MarkPendingAll for one more proposal is one more MarkPending. */
  lemma PendingAllStep(prefs0: Reminders, ps: seq<ProposalId>, proposal: ProposalId)
    ensures MarkPending(MarkPendingAll(prefs0, ps), proposal) == MarkPendingAll(prefs0, ps + [proposal])
  {
    var ps' := ps + [proposal];
    assert ps' != [] && ps'[..|ps'| - 1] == ps && ps'[|ps'| - 1] == proposal;
  }

  /** Assigning a short id to one more proposal keeps the run's short ids. */
  lemma ShortIdsStep(ids0: IdMap, ps: seq<ProposalId>, ids: IdMap, proposal: ProposalId, token: ShortId)
    requires forall p :: p in ps ==> ShortIdOf(ids, p).Some?
    requires forall p :: ShortIdOf(ids0, p).Some? ==> ShortIdOf(ids, p) == ShortIdOf(ids0, p)
    ensures forall p :: p in ps + [proposal] ==> ShortIdOf(AssignShortId(ids, proposal, token), p).Some?
    ensures forall p :: ShortIdOf(ids0, p).Some? ==>
              ShortIdOf(AssignShortId(ids, proposal, token), p) == ShortIdOf(ids0, p)
  {
    var ids' := AssignShortId(ids, proposal, token);
    forall p | p in ps + [proposal]
      ensures ShortIdOf(ids', p).Some?
    {
      if p != proposal {
        assert p in ps;
        assert ShortIdOf(ids', p) == ShortIdOf(ids, p);
      }
    }
    forall p | ShortIdOf(ids0, p).Some?
      ensures ShortIdOf(ids', p) == ShortIdOf(ids0, p)
    {
      assert ShortIdOf(ids, p) == ShortIdOf(ids0, p);
    }
  }

  /** The state a button press of effect e by chat leaves, from (prefs, q, t):
      nothing changes for NoEffect; "voted" records the vote, cancels the pair's listed
      jobs and deletes its list, so none of its jobs will fire; a snooze records the
      instant and adds one job at it beside the pair's live ones. */
  ghost predicate AfterPress(chat: ChatId, e: Effect, now: int,
                             prefs: Reminders, q: seq<Job>, t: map<Key, seq<nat>>,
                             prefs': Reminders, q': seq<Job>, t': map<Key, seq<nat>>)
  {
    match e
    case NoEffect => prefs' == prefs && q' == q && t' == t
    case MarkVoted(proposal) =>
      var key := (chat, proposal);
      && prefs' == SetEntry(prefs, chat, proposal, MarkedVoted)
      && t' == t - {key}
      && q' == (if key in t then Cancelled(q, t[key]) else q)
      && LiveJobs(q', key) == {}
    case Snooze(proposal, hours) =>
      var key := (chat, proposal);
      var when := HoursLater(now, hours);
      && prefs' == SetEntry(prefs, chat, proposal, NextReminderAt(when))
      && q' == q + [Job(chat, proposal, when, false)]
      && t' == t[key := (if key in t then t[key] else []) + [|q|]]
      && LiveJobs(q', key) == LiveJobs(q, key) + {|q|}
  }

  class Bot {
    /** `preferences["reminders"]`. */
    var reminders: Reminders
    /** `proposal_id_map`, in insertion order. */
    var idMap: IdMap
    /** The Snapshot monitor's `known_proposals`. */
    var known: set<ProposalId>
    /** `SCHEDULED_JOBS` and the job queue. */
    const jobs: JobTable
    /** The configured `reminders_from_start` and `reminders_before_end`. */
    const defaults: Intervals

    ghost predicate Valid()
      reads this, jobs
    {
      && jobs.Valid()
      && AllTracked(jobs.queue, jobs.table)
      && TableWithinPrefs(jobs.table, reminders)
      && UniqueKeys(idMap)
    }

    /** Start-up: the three files are loaded; the job table starts empty, since nothing
        is rescheduled from the saved preferences. */
    constructor (defaults: Intervals, reminders: Reminders, idMap: IdMap, known: set<ProposalId>)
      requires UniqueKeys(idMap)
      ensures Valid()
      ensures this.defaults == defaults && this.reminders == reminders
      ensures this.idMap == idMap && this.known == known
      ensures fresh(jobs) && jobs.queue == [] && jobs.table == map[]
    {
      this.defaults := defaults;
      this.reminders := reminders;
      this.idMap := idMap;
      this.known := known;
      jobs := new JobTable();
    }

    /** `/start`: register the chat with no entries, unless it is registered already. */
    method Start(chat: ChatId)
      requires Valid()
      modifies this
      ensures Valid()
      ensures reminders == if chat in old(reminders) then old(reminders) else old(reminders)[chat := map[]]
      ensures idMap == old(idMap) && known == old(known)
    {
      if chat !in reminders {
        reminders := reminders[chat := map[]];
      }
    }

    /** `button_callback`. "voted" records the vote and cancels every job of the pair,
        so none of them fires; "remind_in" records the next reminder instant and adds
        one job at it beside those already there. */
    method ButtonCallback(chat: ChatId, data: string, now: int)
      requires Valid()
      modifies this, jobs
      ensures Valid()
      ensures idMap == old(idMap) && known == old(known)
      ensures AfterPress(chat, Interpret(old(idMap), data), now, old(reminders), old(jobs.queue), old(jobs.table),
                         reminders, jobs.queue, jobs.table)
    {
      match Interpret(idMap, data)
      case NoEffect =>
      case MarkVoted(proposal) => RecordVote(chat, proposal);
      case Snooze(proposal, hours) => RecordSnooze(chat, proposal, HoursLater(now, hours));
    }

    /** The "voted" branch: mark the pair voted, then `cancel_scheduled_reminders`. */
    method RecordVote(chat: ChatId, proposal: ProposalId)
      requires Valid()
      modifies this, jobs
      ensures Valid()
      ensures idMap == old(idMap) && known == old(known)
      ensures var key := (chat, proposal);
              && reminders == SetEntry(old(reminders), chat, proposal, MarkedVoted)
              && jobs.table == old(jobs.table) - {key}
              && jobs.queue == (if key in old(jobs.table) then Cancelled(old(jobs.queue), old(jobs.table)[key])
                                else old(jobs.queue))
              && LiveJobs(jobs.queue, key) == {}
              && forall k :: k != key ==> LiveJobs(jobs.queue, k) == LiveJobs(old(jobs.queue), k)
    {
      var key := (chat, proposal);
      reminders := SetEntry(reminders, chat, proposal, MarkedVoted);
      if key in jobs.table {
        CancelClearsPair(jobs.queue, jobs.table, key);
      } else {
        UntrackedPairIdle(jobs.queue, jobs.table, key);
      }
      jobs.CancelScheduledReminders(chat, proposal);
    }

    /** The "remind_in" branch: record the instant, then run one job at it and append it
        to the pair's list. */
    method RecordSnooze(chat: ChatId, proposal: ProposalId, when: int)
      requires Valid()
      modifies this, jobs
      ensures Valid()
      ensures idMap == old(idMap) && known == old(known)
      ensures var key := (chat, proposal);
              && reminders == SetEntry(old(reminders), chat, proposal, NextReminderAt(when))
              && jobs.queue == old(jobs.queue) + [Job(chat, proposal, when, false)]
              && jobs.table == old(jobs.table)[key := (if key in old(jobs.table) then old(jobs.table)[key] else [])
                                                      + [|old(jobs.queue)|]]
              && LiveJobs(jobs.queue, key) == LiveJobs(old(jobs.queue), key) + {|old(jobs.queue)|}
    {
      var key := (chat, proposal);
      reminders := SetEntry(reminders, chat, proposal, NextReminderAt(when));
      AddTracking(jobs.queue, jobs.table, key, when);
      jobs.AddReminder(chat, proposal, when);
    }

    /** `handle_new_proposal`: give the proposal a short id unless it has one, then, for
        every registered chat without an entry for it, write a None entry and schedule
        its reminders. The offsets are read from the preferences as they were on entry
        (the in-memory copy is saved only after the loop), where such a chat has no
        entry, so every one of them gets the configured defaults. Chats with an entry,
        and every job already in the queue, are left alone. */
    method HandleNewProposal(proposal: ProposalId, start: int, end: int, now: int, token: ShortId)
      requires Valid()
      modifies this, jobs
      ensures Valid()
      ensures known == old(known)
      ensures idMap == AssignShortId(old(idMap), proposal, token)
      ensures reminders == MarkPending(old(reminders), proposal)
      ensures |old(jobs.queue)| <= |jobs.queue| && jobs.queue[..|old(jobs.queue)|] == old(jobs.queue)
      ensures forall key :: key in jobs.table <==> key in old(jobs.table) || NewPair(old(reminders), proposal, key)
      ensures forall key :: key in old(jobs.table) ==> jobs.table[key] == old(jobs.table)[key]
      ensures NewPairsScheduled(old(jobs.queue), jobs.queue, jobs.table, old(reminders), proposal,
                                FiringTimes(start, end, now, defaults))
      ensures (forall c :: c in old(reminders) ==> proposal in old(reminders)[c]) ==>
                jobs.queue == old(jobs.queue) && jobs.table == old(jobs.table)
    {
      var snapshot := reminders;
      ghost var q0, t0 := jobs.queue, jobs.table;
      ghost var nothingNew := forall c :: c in snapshot ==> proposal in snapshot[c];
      ghost var ts := FiringTimes(start, end, now, defaults);
      idMap := AssignShortId(idMap, proposal, token);
      var todo := snapshot.Keys;
      while todo != {}
        decreases todo
        invariant Valid()
        invariant idMap == AssignShortId(old(idMap), proposal, token) && known == old(known)
        invariant Progress(reminders, jobs.queue, jobs.table, snapshot, proposal, todo, q0, t0, ts, nothingNew)
      {
        var chat :| chat in todo;
        VisitChat(snapshot, proposal, todo, chat, start, end, now, q0, t0, nothingNew);
        todo := todo - {chat};
      }
      ProgressDone(reminders, jobs.queue, jobs.table, snapshot, proposal, q0, t0, ts, nothingNew);
    }

    /** One iteration of `handle_new_proposal`'s loop. */
    method VisitChat(snapshot: Reminders, proposal: ProposalId, todo: set<ChatId>, chat: ChatId,
                     start: int, end: int, now: int, ghost q0: seq<Job>, ghost t0: map<Key, seq<nat>>,
                     ghost nothingNew: bool)
      requires Valid() && chat in todo
      requires Progress(reminders, jobs.queue, jobs.table, snapshot, proposal, todo,
                        q0, t0, FiringTimes(start, end, now, defaults), nothingNew)
      requires nothingNew == forall c :: c in snapshot ==> proposal in snapshot[c]
      modifies this, jobs
      ensures Valid()
      ensures idMap == old(idMap) && known == old(known)
      ensures Progress(reminders, jobs.queue, jobs.table, snapshot, proposal, todo - {chat},
                       q0, t0, FiringTimes(start, end, now, defaults), nothingNew)
    {
      if proposal !in reminders[chat] {
        var iv := GetReminderIntervals(snapshot, chat, proposal, defaults);
        ProgressAdd(reminders, jobs.queue, jobs.table, snapshot, proposal, todo, chat,
                    q0, t0, FiringTimes(start, end, now, defaults), nothingNew);
        AddPendingChat(chat, proposal, start, end, now, iv.value);
      } else {
        ProgressSkip(reminders, jobs.queue, jobs.table, snapshot, proposal, todo, chat,
                     q0, t0, FiringTimes(start, end, now, defaults), nothingNew);
      }
    }

    /** One iteration of `handle_new_proposal`'s loop for a chat without an entry: the
        None entry, then `schedule_reminders` with the offsets iv. */
    method AddPendingChat(chat: ChatId, proposal: ProposalId, start: int, end: int, now: int, iv: Intervals)
      requires Valid() && chat in reminders && proposal !in reminders[chat]
      modifies this, jobs
      ensures Valid()
      ensures idMap == old(idMap) && known == old(known)
      ensures reminders == old(reminders)[chat := old(reminders)[chat][proposal := Pending]]
      ensures (chat, proposal) !in old(jobs.table)
      ensures jobs.queue == old(jobs.queue) + FreshJobs((chat, proposal), FiringTimes(start, end, now, iv))
      ensures jobs.table == old(jobs.table)[(chat, proposal) :=
                Handles(|old(jobs.queue)|, |FiringTimes(start, end, now, iv)|)]
      ensures ListsExactly(jobs.queue, jobs.table, (chat, proposal), FiringTimes(start, end, now, iv))
    {
      var key := (chat, proposal);
      UntrackedPairIdle(jobs.queue, jobs.table, key);
      reminders := reminders[chat := reminders[chat][proposal := Pending]];
      var ts := FiringTimes(start, end, now, iv);
      ScheduleTracking(jobs.queue, jobs.table, key, ts);
      ListedFresh(jobs.queue, key, ts);
      jobs.ScheduleReminders(chat, proposal, start, end, now, iv);
    }

    /** One pass of `monitor_snapshot_proposals` over a fetched batch (newest first):
        walk it oldest first, skip every id already known (beforehand or earlier in the
        batch), and otherwise record the id as known and handle the proposal. tokens[k]
        is the short id drawn if the k-th proposal visited needs one. */
    method PollSnapshot(batch: seq<SnapshotProposal>, now: int, tokens: seq<ShortId>)
      returns (handled: seq<ProposalId>)
      requires Valid() && |tokens| == |batch|
      modifies this, jobs
      ensures Valid()
      ensures handled == FirstSightings(OldestFirst(batch), old(known))
      ensures known == old(known) + Elems(OldestFirst(batch))
      ensures RunSoFar(old(reminders), old(idMap), old(jobs.queue), old(jobs.table), handled,
                       reminders, idMap, jobs.queue, jobs.table)
    {
      handled := [];
      ghost var ids := OldestFirst(batch);
      ghost var prefs0, idMap0, q0, t0 := reminders, idMap, jobs.queue, jobs.table;
      assert ids[..0] == [];
      for k := 0 to |batch|
        invariant Valid()
        invariant known == old(known) + Elems(ids[..k])
        invariant handled == FirstSightings(ids[..k], old(known))
        invariant RunSoFar(prefs0, idMap0, q0, t0, handled, reminders, idMap, jobs.queue, jobs.table)
      {
        var proposal := batch[|batch| - 1 - k];
        assert ids[k] == proposal.id;
        FirstSightingsStep(ids, k, old(known));
        var isNew := SightSnapshot(handled, proposal, now, tokens[k], prefs0, idMap0, q0, t0);
        assert isNew <==> ids[k] !in old(known) + Elems(ids[..k]);
        if isNew {
          handled := handled + [proposal.id];
        }
      }
      assert ids[..|batch|] == ids;
    }

    /** One entry of the Snapshot pass: an id already known is skipped; otherwise it is
        recorded as known and the proposal is handled. */
    method SightSnapshot(ghost handled: seq<ProposalId>, proposal: SnapshotProposal, now: int, token: ShortId,
                         ghost prefs0: Reminders, ghost idMap0: IdMap, ghost q0: seq<Job>, ghost t0: map<Key, seq<nat>>)
      returns (isNew: bool)
      requires Valid()
      requires RunSoFar(prefs0, idMap0, q0, t0, handled, reminders, idMap, jobs.queue, jobs.table)
      modifies this, jobs
      ensures Valid()
      ensures isNew <==> proposal.id !in old(known)
      ensures known == old(known) + {proposal.id}
      ensures RunSoFar(prefs0, idMap0, q0, t0, if isNew then handled + [proposal.id] else handled,
                       reminders, idMap, jobs.queue, jobs.table)
    {
      isNew := proposal.id !in known;
      if isNew {
        known := known + {proposal.id};
        HandleOneOf(handled, proposal.id, proposal.start, proposal.end, now, token, prefs0, idMap0, q0, t0);
      }
    }

    /** One pass of `monitor_new_proposals_async` over the new on-chain events: each is
        handled, without any known-set check, as proposal `str(proposalId)` starting at
        readAt and ending at the block-time estimate from the block height heights[i]
        read for it. Reminders are scheduled against the later clock reading now. */
    method PollOnChain(events: seq<OnChainEvent>, heights: seq<int>, readAt: int, now: int, tokens: seq<ShortId>)
      requires Valid() && |heights| == |events| && |tokens| == |events|
      modifies this, jobs
      ensures Valid()
      ensures known == old(known)
      ensures RunSoFar(old(reminders), old(idMap), old(jobs.queue), old(jobs.table), OnChainIds(events),
                       reminders, idMap, jobs.queue, jobs.table)
    {
      ghost var ids := OnChainIds(events);
      ghost var prefs0, idMap0, q0, t0 := reminders, idMap, jobs.queue, jobs.table;
      assert ids[..0] == [];
      for i := 0 to |events|
        invariant Valid()
        invariant known == old(known)
        invariant RunSoFar(prefs0, idMap0, q0, t0, ids[..i], reminders, idMap, jobs.queue, jobs.table)
      {
        var proposal := NatToString(events[i].proposalId);
        var end := EstimateEndTime(readAt, events[i].votingEndBlock, heights[i]);
        assert ids[..i + 1] == ids[..i] + [proposal];
        HandleOneOf(ids[..i], proposal, readAt, end, now, tokens[i], prefs0, idMap0, q0, t0);
      }
      assert ids[..|events|] == ids;
    }

    /** `handle_new_proposal` for the next proposal of a run whose earlier proposals
        were ps. */
    method HandleOneOf(ghost ps: seq<ProposalId>, proposal: ProposalId, start: int, end: int, now: int,
                       token: ShortId, ghost prefs0: Reminders, ghost idMap0: IdMap,
                       ghost q0: seq<Job>, ghost t0: map<Key, seq<nat>>)
      requires Valid()
      requires RunSoFar(prefs0, idMap0, q0, t0, ps, reminders, idMap, jobs.queue, jobs.table)
      modifies this, jobs
      ensures Valid()
      ensures known == old(known)
      ensures RunSoFar(prefs0, idMap0, q0, t0, ps + [proposal], reminders, idMap, jobs.queue, jobs.table)
      ensures idMap == AssignShortId(old(idMap), proposal, token)
      ensures NewPairsScheduled(old(jobs.queue), jobs.queue, jobs.table, old(reminders), proposal,
                                FiringTimes(start, end, now, defaults))
    {
      ghost var prefs1, ids1, q1, t1 := reminders, idMap, jobs.queue, jobs.table;
      HandleNewProposal(proposal, start, end, now, token);
      RunSoFarStep(prefs0, idMap0, q0, t0, ps, prefs1, ids1, q1, t1, proposal, token,
                   reminders, idMap, jobs.queue, jobs.table);
    }
  }
}
