/** The autonomous routine selector: an ordered list of (id, title) modes that the robot
    publishes under `auto_modes` and the operator reorders; after every change the ids
    of the first three modes are written back under `selected_modes`. */
module AutoSelection {
  import opened Common

  /** Sub-table of SmartDashboard the selector works in. */
  const AutonomousTableName: string := "autonomous"
  /** Key under which the robot publishes the available modes. */
  const AutoModesKey: string := "auto_modes"
  /** Key under which the selection is written. */
  const SelectedModesKey: string := "selected_modes"
  /** How many mode ids are sent. */
  const SelectionSize: nat := 3

  /** One entry of `AutoModes`: `Item1` is the id, `Item2` the title shown. */
  datatype AutoMode = AutoMode(id: string, title: string)

  /** The `auto_modes` string after JSON decoding: the (key, value) pairs of the
      dictionary in enumeration order; `NullPayload` when the text decodes to null
      (the library's default `""` does); `Malformed` when decoding throws. */
  datatype Decoded = Pairs(entries: seq<(string, string)>) | NullPayload | Malformed

  /** One `PutString(key, json)` on a table, with the JSON array of ids it encodes. */
  datatype Write = PutString(table: Table, key: string, ids: seq<string>)

  /** The five modes the selector starts with, in order. */
  function DefaultAutoModes(): seq<AutoMode>
  {
    [ AutoMode("hole_hotel_wall", "Hole in hotel wall"), AutoMode("_1", "1"),
      AutoMode("_2", "2"), AutoMode("_3", "3"), AutoMode("_4", "4") ]
  }

  /** The ids of the first `n` modes (of all of them when there are fewer), in order. */
  function TakeIds(modes: seq<AutoMode>, n: nat): (ids: seq<string>)
    ensures |ids| == if |modes| < n then |modes| else n
    ensures forall i :: 0 <= i < |ids| ==> ids[i] == modes[i].id
  {
    if n == 0 || modes == [] then [] else [modes[0].id] + TakeIds(modes[1..], n - 1)
  }

  /** The selection sent for a list of modes: the ids of its first three entries. */
  function Selection(modes: seq<AutoMode>): (ids: seq<string>)
    ensures |ids| == if |modes| >= SelectionSize then SelectionSize else |modes|
    ensures forall i :: 0 <= i < |ids| ==> ids[i] == modes[i].id
  {
    TakeIds(modes, SelectionSize)
  }

  /** A selection is determined by the ids at the head of the list: two lists whose
      first three ids agree send the same selection, titles and later entries aside. */
  lemma {:induction false} SelectionDependsOnHeadIds(a: seq<AutoMode>, b: seq<AutoMode>)
    requires |a| == |b| || (|a| >= SelectionSize && |b| >= SelectionSize)
    requires forall i :: 0 <= i < SelectionSize && i < |a| ==> a[i].id == b[i].id
    ensures Selection(a) == Selection(b)
  {
    var sa, sb := Selection(a), Selection(b);
    assert |sa| == |sb|;
    forall i | 0 <= i < |sa| ensures sa[i] == sb[i] {
    }
  }

  /** The selection the selector starts with. */
  lemma InitialSelection()
    ensures Selection(DefaultAutoModes()) == ["hole_hotel_wall", "_1", "_2"]
  {
  }

  /** `modes` lists exactly the decoded pairs, in their order: ids from keys, titles from
      values. */
  predicate HoldsPairs(modes: seq<AutoMode>, entries: seq<(string, string)>)
  {
    && |modes| == |entries|
    && forall i :: 0 <= i < |modes| ==> modes[i].id == entries[i].0 && modes[i].title == entries[i].1
  }

  class AutonomousSelector {
    /** `AutoModes`, in display order. */
    var autoModes: seq<AutoMode>
    /** `AutonomousNT`: the autonomous sub-table, None before the first connection. */
    var autonomousNT: Option<Table>
    /** Every `PutString` the selector made, in order. */
    var writes: seq<Write>
    /** Handlers attached to the `AutoModesChanged` event. */
    var autoModesChangedSubscribers: nat
    /** How many times `AutoModesChanged` has reached its handlers. */
    var autoModesChangedRaises: nat

    /** The constructor fills the list with the five default modes; its guarded raise of
        `AutoModesChanged` reaches nobody, since no handler can be attached yet. */
    constructor ()
      ensures autoModes == DefaultAutoModes()
      ensures autonomousNT == None && writes == []
      ensures autoModesChangedSubscribers == 0 && autoModesChangedRaises == 0
    {
      autoModes := DefaultAutoModes();
      autonomousNT := None;
      writes := [];
      autoModesChangedSubscribers := 0;
      autoModesChangedRaises := 0;
    }

    /** A handler subscribes to `AutoModesChanged` (`+=`). */
    method SubscribeAutoModesChanged()
      modifies this`autoModesChangedSubscribers
      ensures autoModesChangedSubscribers == old(autoModesChangedSubscribers) + 1
    {
      autoModesChangedSubscribers := autoModesChangedSubscribers + 1;
    }

    /** The counted loop of `SendAutoModes`: the ids of the first `min(3, |AutoModes|)`
        modes, in list order. */
    method TopThreeAutos() returns (topThreeAutos: seq<string>)
      ensures |topThreeAutos| == if |autoModes| >= SelectionSize then SelectionSize else |autoModes|
      ensures forall i :: 0 <= i < |topThreeAutos| ==> topThreeAutos[i] == autoModes[i].id
      ensures topThreeAutos == Selection(autoModes)
    {
      topThreeAutos := [];
      var loopCount := if |autoModes| >= SelectionSize then SelectionSize else |autoModes|;
      for i := 0 to loopCount
        invariant |topThreeAutos| == i
        invariant forall j :: 0 <= j < i ==> topThreeAutos[j] == autoModes[j].id
      {
        topThreeAutos := topThreeAutos + [autoModes[i].id];
      }
    }

    /** `SendAutoModes`: writes the selection under `selected_modes` of the autonomous
        table and writes nothing else; with no table yet the call throws after building
        the list, and nothing is written. */
    method SendAutoModes() returns (outcome: Outcome)
      modifies this`writes
      ensures outcome == Completed <==> autonomousNT != None
      ensures writes == old(writes) +
        if autonomousNT != None then [PutString(autonomousNT.value, SelectedModesKey, Selection(autoModes))] else []
    {
      var topThreeAutos := TopThreeAutos();
      if autonomousNT == None {
        return Threw;
      }
      writes := writes + [PutString(autonomousNT.value, SelectedModesKey, topThreeAutos)];
      outcome := Completed;
    }

    /** `Refresh`, as written: `AutoModesChanged` is raised without a null check, so with
        no handler attached the call throws before anything is sent; otherwise the
        handlers are told and the selection is re-sent. */
    method Refresh() returns (outcome: Outcome)
      modifies this`writes, this`autoModesChangedRaises
      ensures outcome == Completed <==> autoModesChangedSubscribers > 0 && autonomousNT != None
      ensures autoModesChangedSubscribers == 0 ==>
        writes == old(writes) && autoModesChangedRaises == old(autoModesChangedRaises)
      ensures autoModesChangedSubscribers > 0 ==>
        && autoModesChangedRaises == old(autoModesChangedRaises) + 1
        && writes == old(writes) +
             if autonomousNT != None then [PutString(autonomousNT.value, SelectedModesKey, Selection(autoModes))] else []
    {
      if autoModesChangedSubscribers == 0 {
        return Threw;
      }
      autoModesChangedRaises := autoModesChangedRaises + 1;
      outcome := SendAutoModes();
    }

    /** `Refresh` with the raise guarded (`?.Invoke`): handlers are told when there are
        any, and the selection is sent whenever the table exists. */
    method GuardedRefresh() returns (outcome: Outcome)
      modifies this`writes, this`autoModesChangedRaises
      ensures outcome == Completed <==> autonomousNT != None
      ensures autoModesChangedRaises == old(autoModesChangedRaises) + if autoModesChangedSubscribers > 0 then 1 else 0
      ensures writes == old(writes) +
        if autonomousNT != None then [PutString(autonomousNT.value, SelectedModesKey, Selection(autoModes))] else []
    {
      if autoModesChangedSubscribers > 0 {
        autoModesChangedRaises := autoModesChangedRaises + 1;
      }
      outcome := SendAutoModes();
    }

    /** `OnDrop`: after a drop in the list view the selection is re-sent. */
    method OnDrop() returns (outcome: Outcome)
      modifies this`writes
      ensures outcome == Completed <==> autonomousNT != None
      ensures autoModes == old(autoModes)
      ensures writes == old(writes) +
        if autonomousNT != None then [PutString(autonomousNT.value, SelectedModesKey, Selection(autoModes))] else []
    {
      outcome := SendAutoModes();
    }

    /** The first part of `OnAutoModesChanged`: reads and decodes `auto_modes`, then
        replaces the list wholesale by the decoded pairs. Without a table the read
        throws; a payload that fails to decode throws before the list is touched; one
        that decodes to null throws after the list was cleared. */
    method ReplaceAutoModes(decoded: Decoded) returns (outcome: Outcome)
      modifies this`autoModes
      ensures outcome == Completed <==> autonomousNT != None && decoded.Pairs?
      ensures autonomousNT == None || decoded.Malformed? ==> autoModes == old(autoModes)
      ensures autonomousNT != None && decoded.NullPayload? ==> autoModes == []
      ensures outcome == Completed ==> HoldsPairs(autoModes, decoded.entries)
    {
      if autonomousNT == None || decoded.Malformed? {
        return Threw;
      }
      autoModes := [];
      if decoded.NullPayload? {
        return Threw;
      }
      var entries := decoded.entries;
      for n := 0 to |entries|
        invariant HoldsPairs(autoModes, entries[..n])
      {
        autoModes := autoModes + [AutoMode(entries[n].0, entries[n].1)];
      }
      assert entries[..|entries|] == entries;
      outcome := Completed;
    }

    /** `OnAutoModesChanged`: the list is replaced by the decoded pairs, then `Refresh`
        runs. With no `AutoModesChanged` handler, `Refresh` throws and the new list is
        never sent. */
    method OnAutoModesChanged(decoded: Decoded) returns (outcome: Outcome)
      modifies this`autoModes, this`writes, this`autoModesChangedRaises
      ensures outcome == Completed <==> autonomousNT != None && decoded.Pairs? && autoModesChangedSubscribers > 0
      ensures autonomousNT == None || decoded.Malformed? ==> autoModes == old(autoModes) && writes == old(writes)
      ensures autonomousNT != None && decoded.NullPayload? ==> autoModes == [] && writes == old(writes)
      ensures autonomousNT != None && decoded.Pairs? ==> HoldsPairs(autoModes, decoded.entries)
      ensures autoModesChangedRaises == old(autoModesChangedRaises) +
        if autonomousNT != None && decoded.Pairs? && autoModesChangedSubscribers > 0 then 1 else 0
      ensures autonomousNT != None && decoded.Pairs? ==>
        writes == old(writes) +
          if autoModesChangedSubscribers > 0 then [PutString(autonomousNT.value, SelectedModesKey, Selection(autoModes))] else []
    {
      outcome := ReplaceAutoModes(decoded);
      if outcome == Completed {
        outcome := Refresh();
      }
    }

    /** `OnAutoKeyChanged`: only a change of `auto_modes` is acted on; any other key
        leaves the list alone and sends nothing. */
    method OnAutoKeyChanged(key: string, decoded: Decoded) returns (outcome: Outcome)
      modifies this`autoModes, this`writes, this`autoModesChangedRaises
      ensures key != AutoModesKey ==> outcome == Completed && autoModes == old(autoModes) && writes == old(writes)
      ensures key != AutoModesKey ==> autoModesChangedRaises == old(autoModesChangedRaises)
      ensures key == AutoModesKey ==>
        autoModesChangedRaises == old(autoModesChangedRaises) +
          if autonomousNT != None && decoded.Pairs? && autoModesChangedSubscribers > 0 then 1 else 0
      ensures key == AutoModesKey ==>
        (outcome == Completed <==> autonomousNT != None && decoded.Pairs? && autoModesChangedSubscribers > 0)
      ensures key == AutoModesKey && (autonomousNT == None || decoded.Malformed?) ==>
        autoModes == old(autoModes) && writes == old(writes)
      ensures key == AutoModesKey && autonomousNT != None && decoded.NullPayload? ==>
        autoModes == [] && writes == old(writes)
      ensures key == AutoModesKey && autonomousNT != None && decoded.Pairs? ==>
        && HoldsPairs(autoModes, decoded.entries)
        && writes == old(writes) +
             if autoModesChangedSubscribers > 0 then [PutString(autonomousNT.value, SelectedModesKey, Selection(autoModes))] else []
    {
      if key == AutoModesKey {
        outcome := OnAutoModesChanged(decoded);
      } else {
        outcome := Completed;
      }
    }

    /** `OnConnect(connected)`: on a connection, takes the autonomous sub-table of the
        SmartDashboard table (None when there is none); a disconnection changes nothing. */
    method OnConnect(connected: bool, smartDashboard: Option<Table>)
      modifies this`autonomousNT
      ensures !connected ==> autonomousNT == old(autonomousNT)
      ensures connected ==>
        (autonomousNT == match smartDashboard case None => None case Some(t) => Some(GetSubTable(t, AutonomousTableName)))
    {
      if !connected {
        return;
      }
      autonomousNT := match smartDashboard case None => None case Some(t) => Some(GetSubTable(t, AutonomousTableName));
    }
  }

  /** A selector as the application builds it, with no `AutoModesChanged` handler: after
      a connection, a well-formed `auto_modes` payload refills the list, but the
      unguarded raise in `Refresh` throws and no selection is written. */
  method UnsubscribedRefillSendsNothing() returns (outcome: Outcome, shown: seq<AutoMode>, sent: seq<Write>)
    ensures outcome == Threw
    ensures shown == [AutoMode("only", "Only mode")]
    ensures sent == []
  {
    var selector := new AutonomousSelector();
    selector.OnConnect(true, Some(GetTable("SmartDashboard")));
    outcome := selector.OnAutoModesChanged(Pairs([("only", "Only mode")]));
    shown := selector.autoModes;
    sent := selector.writes;
  }
}
