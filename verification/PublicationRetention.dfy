/** The retention sweeper's loops and the indexed publisher's sequence counter, as they update their state in place. */
module PublicationRetention {
  import opened Wrappers
  import opened PublicationAudit
  import opened PublicationLedger

  /** What the provider answers when asked to unpin; a failure leaves the pin. */
  type Provider = Cid -> bool

  ghost predicate TablesOk(tables: Tables) {
    LedgerOk(Indexed, tables.indexed) && LedgerOk(Poi, tables.poi)
  }

  function Members(cids: seq<Cid>): set<Cid> {
    set cid | cid in cids
  }

  lemma MembersSnoc(cids: seq<Cid>, cid: Cid)
    ensures Members(cids + [cid]) == Members(cids) + {cid}
  {
  }

  /** The tables after sweeping the candidates in turn. */
  function SweepAll(tables: Tables, candidates: seq<Cid>, cutoff: Time, unpin: Provider): Tables {
    if candidates == [] then tables
    else
      var before, cid := SweepAll(tables, candidates[..|candidates| - 1], cutoff, unpin), candidates[|candidates| - 1];
      if Eligible(before, cid, cutoff) && unpin(cid) then SweepCommit(before, cid, cutoff) else before
  }

  /** The candidates that are unpinned, in turn. */
  function Swept(tables: Tables, candidates: seq<Cid>, cutoff: Time, unpin: Provider): seq<Cid> {
    if candidates == [] then []
    else
      var init, cid := candidates[..|candidates| - 1], candidates[|candidates| - 1];
      var before := Swept(tables, init, cutoff, unpin);
      if Eligible(SweepAll(tables, init, cutoff, unpin), cid, cutoff) && unpin(cid) then before + [cid] else before
  }

  lemma SweepOne(tables: Tables, cid: Cid, cutoff: Time)
    requires TablesOk(tables)
    ensures TablesOk(SweepCommit(tables, cid, cutoff))
    ensures forall c :: Guarded(SweepCommit(tables, cid, cutoff), c) <==> Guarded(tables, c)
  {
    SweepKeeps(Indexed, tables.indexed, cid, cutoff);
    SweepKeeps(Poi, tables.poi, cid, cutoff);
    forall c ensures Guarded(SweepCommit(tables, cid, cutoff), c) <==> Guarded(tables, c) {
      SameStandingProtects(tables.indexed, SweepRows(tables.indexed, cid, cutoff), c);
      SameStandingProtects(tables.poi, SweepRows(tables.poi, cid, cutoff), c);
    }
  }

  /** What becomes of a cleanup debt. */
  datatype Outcome = Dropped | Paid | Postponed

  function OutcomeOf(tables: Tables, unpin: Provider, cid: Cid): Outcome {
    if Referenced(tables, cid) then Dropped else if unpin(cid) then Paid else Postponed
  }

  /** The audit store and the provider's pins, as one sweep sees them. */
  class Retention {
    var tables: Tables
    var debts: map<Cid, nat>
    var pins: set<Cid>

    constructor (tables: Tables, debts: map<Cid, nat>, pins: set<Cid>)
      ensures this.tables == tables && this.debts == debts && this.pins == pins
    {
      this.tables, this.debts, this.pins := tables, debts, pins;
    }

    /** One debt, under the lock. */
    method RetryOne(cid: Cid, unpin: Provider) returns (outcome: Outcome)
      requires cid in debts
      modifies this`debts, this`pins
      ensures outcome == OutcomeOf(tables, unpin, cid)
      ensures pins == if outcome.Paid? then old(pins) - {cid} else old(pins)
      ensures debts == if outcome.Postponed? then old(debts)[cid := old(debts)[cid] + 1] else old(debts) - {cid}
    {
      if Referenced(tables, cid) {
        debts := debts - {cid};
        return Dropped;
      }
      if unpin(cid) {
        pins := pins - {cid};
        debts := debts - {cid};
        return Paid;
      }
      debts := debts[cid := debts[cid] + 1];
      return Postponed;
    }

    /** Each debt is dropped when something references its address again, paid when the provider unpins it, and kept
        with one more attempt otherwise. Nothing referenced is unpinned. */
    method RetryPinCleanupDebt(owed: seq<Cid>, unpin: Provider) returns (cleaned: seq<Cid>, failed: seq<Cid>)
      requires forall cid :: cid in owed <==> cid in debts
      requires forall i, j :: 0 <= i < j < |owed| ==> owed[i] != owed[j]
      modifies this`debts, this`pins
      ensures forall cid :: cid in cleaned <==> cid in old(debts) && !Referenced(tables, cid) && unpin(cid)
      ensures forall cid :: cid in failed <==> cid in old(debts) && !Referenced(tables, cid) && !unpin(cid)
      ensures pins == old(pins) - Members(cleaned)
      ensures forall cid :: cid in debts <==> cid in failed
      ensures forall cid :: cid in debts ==> debts[cid] == old(debts)[cid] + 1
    {
      cleaned, failed := [], [];
      for i := 0 to |owed|
        invariant forall cid :: cid in cleaned <==> cid in owed[..i] && OutcomeOf(tables, unpin, cid).Paid?
        invariant forall cid :: cid in failed <==> cid in owed[..i] && OutcomeOf(tables, unpin, cid).Postponed?
        invariant pins == old(pins) - Members(cleaned)
        invariant forall cid :: cid in debts <==> cid in owed[i..] || cid in failed
        invariant forall cid :: cid in owed[i..] ==> debts[cid] == old(debts)[cid]
        invariant forall cid :: cid in failed ==> debts[cid] == old(debts)[cid] + 1
      {
        hide OutcomeOf, Members;
        var cid := owed[i];
        assert owed[i..] == [cid] + owed[i + 1..] && owed[..i + 1] == owed[..i] + [cid];
        assert cid !in owed[..i] && cid !in owed[i + 1..];
        MembersSnoc(cleaned, cid);
        var outcome := RetryOne(cid, unpin);
        if outcome.Paid? {
          cleaned := cleaned + [cid];
        } else if outcome.Postponed? {
          failed := failed + [cid];
        }
      }
      assert owed[..|owed|] == owed && owed[|owed|..] == [];
    }

    /** Sweeps the candidates, asking again for each one under the lock. No address that a standing manifest needs is
        unpinned, and what the standing manifests need is the same afterwards. */
    method Sweep(candidates: seq<Cid>, cutoff: Time, unpin: Provider) returns (unpinned: seq<Cid>, failed: seq<Cid>)
      requires TablesOk(tables)
      modifies this`tables, this`pins
      ensures TablesOk(tables) && tables == SweepAll(old(tables), candidates, cutoff, unpin)
      ensures unpinned == Swept(old(tables), candidates, cutoff, unpin) && pins == old(pins) - Members(unpinned)
      ensures forall cid :: cid in unpinned ==> cid in candidates && unpin(cid) && !Guarded(old(tables), cid)
      ensures forall cid :: cid in failed ==> cid in candidates && !unpin(cid)
      ensures forall cid :: Guarded(tables, cid) <==> Guarded(old(tables), cid)
    {
      hide TablesOk, Guarded, Eligible, SweepCommit;
      unpinned, failed := [], [];
      for i := 0 to |candidates|
        invariant TablesOk(tables) && tables == SweepAll(old(tables), candidates[..i], cutoff, unpin)
        invariant unpinned == Swept(old(tables), candidates[..i], cutoff, unpin)
                  && pins == old(pins) - Members(unpinned)
        invariant forall cid :: cid in unpinned ==> cid in candidates && unpin(cid) && !Guarded(old(tables), cid)
        invariant forall cid :: cid in failed ==> cid in candidates && !unpin(cid)
        invariant forall cid :: Guarded(tables, cid) <==> Guarded(old(tables), cid)
      {
        var cid := candidates[i];
        assert candidates[..i + 1][..i] == candidates[..i];
        if Eligible(tables, cid, cutoff) {
          assert !Guarded(tables, cid) by { Unneeded(tables, cid, cutoff); }
          if unpin(cid) {
            SweepOne(tables, cid, cutoff);
            pins := pins - {cid};
            tables := SweepCommit(tables, cid, cutoff);
            unpinned := unpinned + [cid];
          } else {
            failed := failed + [cid];
          }
        }
      }
      assert candidates[..|candidates|] == candidates;
    }
  }

  lemma Unneeded(tables: Tables, cid: Cid, cutoff: Time)
    requires TablesOk(tables) && Eligible(tables, cid, cutoff)
    ensures !Guarded(tables, cid)
  {
    EligibleUnguarded(tables, cid, cutoff);
  }

  /** The sequence counter of the indexed publisher in front of the stored one. */
  class SequenceCounter {
    var stored: Option<nat>
    var last: Option<nat>
    var loaded: bool

    constructor (stored: Option<nat>)
      ensures this.stored == stored && !loaded && last == None
    {
      this.stored, last, loaded := stored, None, false;
    }

    /** What was handed out never exceeds what is stored, and a loaded counter is the stored one. */
    ghost predicate Valid()
      reads this
    {
      loaded ==> last == stored
    }

    /** The next sequence is above everything stored before, whatever the clock says, and is stored before it is
        used. */
    method Next(clock: nat) returns (sequence: nat)
      requires Valid()
      modifies this
      ensures Valid() && loaded && stored == Some(sequence)
      ensures sequence == Max(clock, Level(old(stored)) + 1)
    {
      if !loaded {
        last, loaded := stored, true;
      }
      sequence := match last case None => clock case Some(previous) => if clock > previous then clock else previous + 1;
      stored := Some(Max(Level(stored), sequence));
      last := Some(sequence);
    }

    /** Reconciliation adopts the sequence of the pending manifest without loading; that is the stored one. */
    method Adopt(pending: nat)
      requires Valid() && stored == Some(pending)
      modifies this
      ensures Valid() && loaded && stored == old(stored)
    {
      last, loaded := Some(pending), true;
    }
  }
}
