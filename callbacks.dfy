/** The payloads of the inline buttons attached to every reminder, `action|short_id[|hours]`,
    and how the button handler reads them back. */
module Callbacks {
  import opened Wrappers
  import opened Ids
  import opened Text
  import opened Numerals

  const VotedAction: string := "voted"
  const RemindInAction: string := "remind_in"

  function VotedData(sid: ShortId): string
  {
    VotedAction + "|" + sid
  }

  function RemindData(sid: ShortId, hours: int): string
  {
    RemindInAction + "|" + sid + "|" + IntToString(hours)
  }

  /** `create_inline_buttons`: the payload of each button row, "I have already voted"
      first, then one "Remind me in h hour(s)" row per configured h, in order. */
  function CreateInlineButtons(sid: ShortId, buttonHours: seq<int>): (rows: seq<string>)
    ensures |rows| == 1 + |buttonHours|
    ensures rows[0] == VotedData(sid)
    ensures forall k :: 0 <= k < |buttonHours| ==> rows[k + 1] == RemindData(sid, buttonHours[k])
  {
    [VotedData(sid)] + seq(|buttonHours|, k requires 0 <= k < |buttonHours| => RemindData(sid, buttonHours[k]))
  }

  /** What the button handler makes of a payload after splitting it on '|'. */
  datatype Callback =
    | Malformed                                        // fewer than two fields: `data[1]` raises
    | Voted(sid: ShortId)
    | RemindIn(sid: ShortId, hours: Option<int>)       // None: the hours field is missing or not a number
    | Unknown(action: string, sid: ShortId)

  function Decode(data: string): (c: Callback)
    ensures var fields := Split(data, '|');
            && (c.Malformed? <==> |fields| < 2)
            && (!c.Malformed? ==> c.sid == fields[1])
            && (c.Voted? <==> |fields| >= 2 && fields[0] == VotedAction)
            && (c.RemindIn? <==> |fields| >= 2 && fields[0] == RemindInAction)
            && (c.RemindIn? ==> (c.hours.Some? <==> |fields| >= 3 && ParseInt(Strip(fields[2])).Some?))
  {
    var fields := Split(data, '|');
    if |fields| < 2 then Malformed
    else if fields[0] == VotedAction then Voted(fields[1])
    else if fields[0] == RemindInAction then
      RemindIn(fields[1], if |fields| >= 3 then ParseInt(Strip(fields[2])) else None)
    else Unknown(fields[0], fields[1])
  }

  /** Every button payload decodes to the action, short id and hours it was built from,
      provided the short id holds no '|' (a generated token never does). */
  lemma ButtonsDecode(sid: ShortId, buttonHours: seq<int>, k: nat)
    requires '|' !in sid
    requires k < 1 + |buttonHours|
    ensures Decode(CreateInlineButtons(sid, buttonHours)[k])
            == if k == 0 then Voted(sid) else RemindIn(sid, Some(buttonHours[k - 1]))
  {
    if k == 0 {
      VotedDataDecodes(sid);
    } else {
      RemindDataDecodes(sid, buttonHours[k - 1]);
    }
  }

  lemma VotedDataDecodes(sid: ShortId)
    requires '|' !in sid
    ensures Decode(VotedData(sid)) == Voted(sid)
  {
    assert VotedData(sid) == VotedAction + ['|'] + sid;
    assert Split(VotedData(sid), '|') == [VotedAction, sid] by {
      SplitAtFirst(VotedAction, '|', sid);
      SplitWithoutSeparator(sid, '|');
    }
  }

  lemma RemindDataDecodes(sid: ShortId, hours: int)
    requires '|' !in sid
    ensures Decode(RemindData(sid, hours)) == RemindIn(sid, Some(hours))
  {
    var h := IntToString(hours);
    var data := RemindData(sid, hours);
    assert data == RemindInAction + ['|'] + (sid + ['|'] + h);
    assert '|' !in h;
    assert Split(data, '|') == [RemindInAction, sid, h] by {
      SplitAtFirst(RemindInAction, '|', sid + ['|'] + h);
      SplitAtFirst(sid, '|', h);
      SplitWithoutSeparator(h, '|');
    }
    assert ParseInt(Strip(h)) == Some(hours) by {
      StripNumeral(hours);
      IntToStringRoundTrip(hours);
    }
  }
}
