/** What becomes of a POI manifest found pending after a restart. */
module PublicationRecovery {
  import opened Wrappers
  import opened PublicationAudit
  import opened PublicationLedger
  import opened PublicationSteps
  import opened PublicationChannel
  import opened PublicationSafety
  import opened PublicationRuns

  /** The events lead from one world to the other. */
  ghost predicate Leads(w: World, events: seq<Event>, after: World)
    decreases |events|
  {
    if events == [] then after == w else Enabled(w, events[0]) && Leads(Apply(w, events[0]), events[1..], after)
  }

  /** A step of the publisher of this channel. */
  predicate Own(e: Event, channel: Channel) {
    match e
    case Crash => false
    case LosePin(_) => false
    case SweepCheck(_, _) => false
    case SweepUnpin(_, _) => false
    case SweepMark(_) => false
    case DebtCheck(_) => false
    case DebtUnpin(_, _) => false
    case _ => e.channel == channel
  }

  ghost predicate AllOwn(events: seq<Event>, channel: Channel) {
    forall i :: 0 <= i < |events| ==> Own(events[i], channel)
  }

  function Needed(m: Manifest): set<Cid> {
    m.artifacts + {m.cid}
  }

  lemma LeadsOne(w: World, e: Event)
    requires Enabled(w, e)
    ensures Leads(w, [e], Apply(w, e))
  {
    hide Enabled, Apply;
    assert [e][1..] == [];
  }

  lemma {:induction false} LeadsOn(w: World, a: seq<Event>, middle: World, b: seq<Event>, after: World)
    requires Leads(w, a, middle) && Leads(middle, b, after)
    ensures Leads(w, a + b, after)
    decreases |a|
  {
    hide Enabled, Apply;
    if a == [] {
      assert a + b == b;
    } else {
      LeadsOn(Apply(w, a[0]), a[1..], middle, b, after);
      assert (a + b)[1..] == a[1..] + b;
    }
  }

  /** The publisher is at rest and finds this row pending. */
  ghost predicate Restarted(w: World, channel: Channel, row: nat) {
    Inv(w) && PhaseOf(w, channel).Idle? && FindsPending(LedgerOf(w, channel), row)
  }

  lemma PendingIsLast(w: World, channel: Channel, row: nat)
    requires Restarted(w, channel, row)
    ensures row == |LedgerOf(w, channel).manifests| - 1 && HasPending(LedgerOf(w, channel))
  {
    hide PhaseOk, MemoryOk, LogOk, PinsOk, RowOk;
  }

  lemma SendNow(w: World, channel: Channel)
    requires Inv(w) && PhaseOf(w, channel).Recorded?
    requires PhaseOf(w, channel).checked == PhaseOf(w, channel).artifacts + {PhaseOf(w, channel).cid}
    ensures Enabled(w, Send(channel, true))
    ensures var sent := Apply(w, Send(channel, true));
            Inv(sent) && LedgerOf(sent, channel) == LedgerOf(w, channel) && PhaseOf(sent, channel).Dispatched?
  {
    hide Inv;
    SendStep(w, Send(channel, true));
  }

  lemma ConfirmNow(w: World, channel: Channel, now: Time)
    requires Inv(w) && PhaseOf(w, channel).Dispatched?
    ensures Enabled(w, Confirm(channel, now, true))
    ensures var after := LedgerOf(Apply(w, Confirm(channel, now, true)), channel);
            && |after.manifests| == |LedgerOf(w, channel).manifests| > 0
            && Active(after.manifests[|after.manifests| - 1]) && !HasPending(after)
  {
    var confirm := Confirm(channel, now, true);
    var l, phase := LedgerOf(w, channel), PhaseOf(w, channel);
    assert Enabled(w, confirm);
    hide Inv, Apply, Enabled, Activate, HasPending, RowOk, Protects;
    ConfirmActivates(w, confirm);
    ActivateKeeps(channel, l, phase.cid, phase.sequence, phase.artifacts, now);
  }

  /** From a checked manifest, sending and confirming activate it. */
  lemma SendAndConfirm(w: World, channel: Channel, row: nat, now: Time) returns (events: seq<Event>, after: World)
    requires Inv(w) && PhaseOf(w, channel).Recorded? && row == |LedgerOf(w, channel).manifests| - 1
    requires PhaseOf(w, channel).checked == PhaseOf(w, channel).artifacts + {PhaseOf(w, channel).cid}
    ensures AllOwn(events, channel) && Leads(w, events, after)
    ensures row == |LedgerOf(after, channel).manifests| - 1 && Active(LedgerOf(after, channel).manifests[row])
    ensures !HasPending(LedgerOf(after, channel))
  {
    hide Inv, Apply, Enabled, HasPending, Active, Leads;
    var send, confirm := Send(channel, true), Confirm(channel, now, true);
    SendNow(w, channel);
    var sent := Apply(w, send);
    ConfirmNow(sent, channel, now);
    after := Apply(sent, confirm);
    LeadsOne(w, send);
    LeadsOne(sent, confirm);
    LeadsOn(w, [send], sent, [confirm], after);
    events := [send] + [confirm];
  }

  lemma Missing(needed: set<Cid>, held: set<Cid>) returns (cid: Cid)
    requires !(needed <= held)
    ensures cid in needed && cid !in held
  {
    cid :| cid in needed && cid !in held;
  }

  // ---------------------------------------------------------------------------------------------
  // The POI channel
  // ---------------------------------------------------------------------------------------------

  /** The publisher finds the rest of what it needs available. */
  lemma {:induction false} FindAll(w: World) returns (events: seq<Event>, after: World)
    requires Inv(w) && PhaseOf(w, Poi).Recorded? && PhaseOf(w, Poi).artifacts + {PhaseOf(w, Poi).cid} <= w.pins
    ensures AllOwn(events, Poi) && Leads(w, events, after) && Inv(after)
    ensures PhaseOf(after, Poi) == PhaseOf(w, Poi).(checked := PhaseOf(w, Poi).artifacts + {PhaseOf(w, Poi).cid})
    ensures LedgerOf(after, Poi) == LedgerOf(w, Poi)
    decreases PhaseOf(w, Poi).artifacts + {PhaseOf(w, Poi).cid} - PhaseOf(w, Poi).checked
  {
    var phase := PhaseOf(w, Poi);
    var needed := phase.artifacts + {phase.cid};
    assert phase.checked <= needed by { CheckedNeeded(w); }
    if phase.checked == needed {
      return [], w;
    }
    var cid := Missing(needed, phase.checked);
    FindOne(w, cid);
    hide Inv, Apply, Enabled, Leads;
    var find := FindAvailable(Poi, cid);
    var found := Apply(w, find);
    LeadsOne(w, find);
    var rest;
    rest, after := FindAll(found);
    LeadsOn(w, [find], found, rest, after);
    events := [find] + rest;
  }

  lemma FindOne(w: World, cid: Cid)
    requires Inv(w) && PhaseOf(w, Poi).Recorded? && cid in PhaseOf(w, Poi).artifacts + {PhaseOf(w, Poi).cid}
             && cid in w.pins
    ensures Enabled(w, FindAvailable(Poi, cid))
    ensures var found := Apply(w, FindAvailable(Poi, cid));
            && Inv(found) && found.pins == w.pins && found.tables == w.tables
            && PhaseOf(found, Poi) == PhaseOf(w, Poi).(checked := PhaseOf(w, Poi).checked + {cid})
  {
    hide Inv;
    FindStep(w, FindAvailable(Poi, cid));
  }

  lemma CheckedNeeded(w: World)
    requires Inv(w) && PhaseOf(w, Poi).Recorded?
    ensures PhaseOf(w, Poi).checked <= PhaseOf(w, Poi).artifacts + {PhaseOf(w, Poi).cid}
  {
    hide LedgerOk, MemoryOk, LogOk, PinsOk;
  }

  /** After a restart the POI publisher always gets past its pending manifest by itself: it brings it into force when
      everything it needs is pinned, and gives it up otherwise. */
  lemma PoiRecovery(w: World, row: nat, now: Time) returns (events: seq<Event>, after: World)
    requires Restarted(w, Poi, row)
    ensures AllOwn(events, Poi) && Leads(w, events, after)
    ensures !HasPending(after.tables.poi) && row < |after.tables.poi.manifests|
    ensures if Needed(w.tables.poi.manifests[row]) <= w.pins then Active(after.tables.poi.manifests[row])
            else after.tables.poi.manifests[row].invalidated
  {
    hide Inv, Apply, Enabled, Active, HasPending, Leads;
    var resume := Resume(Poi, row);
    var m := w.tables.poi.manifests[row];
    PendingIsLast(w, Poi, row);
    ResumeNow(w, row);
    var resumed := Apply(w, resume);
    LeadsOne(w, resume);
    var rest;
    if Needed(m) <= w.pins {
      var finds, found := FindAll(resumed);
      rest, after := SendAndConfirm(found, Poi, row, now);
      LeadsOn(resumed, finds, found, rest, after);
      rest := finds + rest;
    } else {
      var cid := Missing(Needed(m), w.pins);
      var giveUp := GiveUp(Poi, cid);
      GivenUp(resumed, giveUp, row);
      after := Apply(resumed, giveUp);
      LeadsOne(resumed, giveUp);
      rest := [giveUp];
    }
    LeadsOn(w, [resume], resumed, rest, after);
    events := [resume] + rest;
  }

  lemma ResumeNow(w: World, row: nat)
    requires Restarted(w, Poi, row)
    ensures Enabled(w, Resume(Poi, row))
    ensures var resumed := Apply(w, Resume(Poi, row));
            var m := w.tables.poi.manifests[row];
            && Inv(resumed) && resumed.tables == w.tables && resumed.pins == w.pins
            && PhaseOf(resumed, Poi) == Recorded(m.cid, m.sequence, m.artifacts, {}, true)
  {
    hide Inv;
    ResumeStep(w, Resume(Poi, row));
  }

  lemma GivenUp(w: World, e: Event, row: nat)
    requires Inv(w) && e.GiveUp? && e.channel.Poi? && row == |w.tables.poi.manifests| - 1
    requires PhaseOf(w, Poi).Recorded? && PhaseOf(w, Poi).resumed && e.unavailable !in w.pins
    requires e.unavailable in PhaseOf(w, Poi).artifacts + {PhaseOf(w, Poi).cid}
    ensures Enabled(w, e)
    ensures var after := Apply(w, e);
            && !HasPending(after.tables.poi) && row < |after.tables.poi.manifests|
            && after.tables.poi.manifests[row].invalidated
  {
    hide Inv, Abandon, HasPending, Protects, LedgerOk;
    var l, p := w.tables.poi, w.publishers.poi;
    RecordedAwaits(w);
    var unavailable := if e.unavailable in p.phase.artifacts then Some(e.unavailable) else None;
    AbandonKeeps(l, p.phase.cid, p.phase.sequence, p.phase.artifacts, unavailable);
    assert Invalidated(l.manifests[row]).invalidated;
  }

  lemma RecordedAwaits(w: World)
    requires Inv(w) && PhaseOf(w, Poi).Recorded?
    ensures LedgerOk(Poi, w.tables.poi)
    ensures Awaits(w.tables.poi, PhaseOf(w, Poi).cid, PhaseOf(w, Poi).sequence, PhaseOf(w, Poi).artifacts)
  {
    hide LedgerOk, MemoryOk, LogOk, PinsOk;
  }
}
