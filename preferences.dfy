/** The per-subscriber reminder state (`preferences["reminders"]`): chat -> proposal ->
    state, and the lookup of a pair's reminder offsets. */
module Preferences {
  import opened Wrappers
  import opened Ids
  import opened Scheduler

  /** What the preferences record holds for a (chat, proposal) pair that has an entry. */
  datatype PrefState =
    | Pending                                   // None: registered, reminders scheduled
    | MarkedVoted                               // "voted"
    | NextReminderAt(at: int)                   // the ISO instant of the next snoozed reminder
    | Overrides(fromStart: Option<seq<int>>, beforeEnd: Option<seq<int>>)
                                                // a mapping with 'from_start' / 'before_end' keys

  type Reminders = map<ChatId, map<ProposalId, PrefState>>

  /** `get_reminder_intervals`: a pair without an entry gets the global offsets; an entry
      that is a mapping overrides each list it names and keeps the default for the other;
      any other entry (None, "voted", an instant) has no `.get`, so the lookup raises,
      which is None here. */
  function GetReminderIntervals(prefs: Reminders, chat: ChatId, proposal: ProposalId, defaults: Intervals)
    : (r: Option<Intervals>)
    ensures chat !in prefs || proposal !in prefs[chat] ==> r == Some(defaults)
    ensures r.None? <==> chat in prefs && proposal in prefs[chat] && !prefs[chat][proposal].Overrides?
    ensures r.Some? && chat in prefs && proposal in prefs[chat] ==>
              var e := prefs[chat][proposal];
              && r.value.fromStart == (if e.fromStart.Some? then e.fromStart.value else defaults.fromStart)
              && r.value.beforeEnd == (if e.beforeEnd.Some? then e.beforeEnd.value else defaults.beforeEnd)
  {
    if chat !in prefs || proposal !in prefs[chat] then Some(defaults)
    else
      match prefs[chat][proposal]
      case Overrides(fs, be) =>
        Some(Intervals(if fs.Some? then fs.value else defaults.fromStart,
                       if be.Some? then be.value else defaults.beforeEnd))
      case _ => None
  }

  /** `reminders.setdefault(chat, {})[proposal] = state`: the chat is registered if it
      was not, the pair's entry becomes state, and nothing else changes. */
  function SetEntry(prefs: Reminders, chat: ChatId, proposal: ProposalId, state: PrefState): (r: Reminders)
    ensures r.Keys == prefs.Keys + {chat}
    ensures r[chat].Keys == (if chat in prefs then prefs[chat].Keys else {}) + {proposal}
    ensures r[chat][proposal] == state
    ensures forall p :: p != proposal && chat in prefs && p in prefs[chat] ==> r[chat][p] == prefs[chat][p]
    ensures forall c :: c != chat && c in prefs ==> r[c] == prefs[c]
  {
    prefs[chat := (if chat in prefs then prefs[chat] else map[])[proposal := state]]
  }

  /** e' is the entry map e with a None entry added for every proposal of ps it lacks:
      the old entries are kept as they were. */
  ghost predicate EntriesExtended(e: map<ProposalId, PrefState>, ps: set<ProposalId>, e': map<ProposalId, PrefState>)
  {
    && (forall p :: p in e' <==> p in e || p in ps)
    && (forall p :: p in e' ==> e'[p] == if p in e then e[p] else Pending)
  }

  /** Every chat of prefs, and no other, has its entries extended by ps in r. */
  ghost predicate PendingAdded(prefs: Reminders, ps: set<ProposalId>, r: Reminders)
  {
    && r.Keys == prefs.Keys
    && forall c :: c in prefs ==> EntriesExtended(prefs[c], ps, r[c])
  }

  /** The preferences step of `handle_new_proposal`: every registered chat without an
      entry for the proposal gets None; chats with an entry keep it, and no chat is
      added. */
  function MarkPending(prefs: Reminders, proposal: ProposalId): (r: Reminders)
    ensures PendingAdded(prefs, {proposal}, r)
  {
    map c | c in prefs :: PendingEntry(prefs[c], proposal)
  }

  /** One chat's entries after MarkPending. */
  function PendingEntry(e: map<ProposalId, PrefState>, proposal: ProposalId): map<ProposalId, PrefState>
  {
    if proposal in e then e else e[proposal := Pending]
  }

  /** Extending by A and then by B is extending by A + B. */
  lemma ExtendedTwice(e: map<ProposalId, PrefState>, a: set<ProposalId>, e1: map<ProposalId, PrefState>,
                      b: set<ProposalId>, e2: map<ProposalId, PrefState>)
    requires EntriesExtended(e, a, e1) && EntriesExtended(e1, b, e2)
    ensures EntriesExtended(e, a + b, e2)
  {
  }

  /** MarkPending for each proposal of ps in turn: each chat then has an entry for
      exactly its old proposals and the handled ones; old entries are kept and the new
      ones are None. */
  function MarkPendingAll(prefs: Reminders, ps: seq<ProposalId>): (r: Reminders)
    ensures PendingAdded(prefs, (set p | p in ps), r)
  {
    if ps == [] then prefs
    else
      var init, last := ps[..|ps| - 1], ps[|ps| - 1];
      var prev := MarkPendingAll(prefs, init);
      var r := MarkPending(prev, last);
      assert (set p | p in ps) == (set p | p in init) + {last} by {
        assert ps == init + [last];
      }
      forall c | c in prefs
        ensures EntriesExtended(prefs[c], (set p | p in ps), r[c])
      {
        ExtendedTwice(prefs[c], (set p | p in init), prev[c], {last}, r[c]);
      }
      r
  }
}
