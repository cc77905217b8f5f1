/** Leases over whole runs: how far apart two claims of one effect are. */
module ProtocolLeases {
  import opened Prelude
  import opened Models
  import opened Ledger
  import opened LedgerProofs
  import opened Protocol
  import opened ProtocolInvariant
  import opened ProtocolSteps
  import opened ProtocolTarget

  lemma {:induction false} RunGrows(s: System, run: seq<Label>)
    requires Inv(s)
    ensures Grows(s.ledger, After(s, run).ledger)
  {
    hide Inv, Next, Is, Grows;
    if run == [] {
      UnchangedGrows(s.ledger);
    } else {
      var before := After(s, run[..|run| - 1]);
      RunGrows(s, run[..|run| - 1]);
      RunKeeps(s, run[..|run| - 1]);
      var k := Classify(before, run[|run| - 1]);
      KindGrows(before, Next(before, run[|run| - 1]), k);
      GrowsTransitive(s.ledger, before.ledger, Next(before, run[|run| - 1]).ledger);
    }
  }

  /** A claim hands out an effect. */
  ghost predicate Takes(s: System, l: Label, id: string) {
    l.Claim? && id in s.ledger.entries && id in Next(s, l).ledger.entries
    && Next(s, l).ledger.entries[id] != s.ledger.entries[id]
  }

  /** Who may take an effect, and what taking it leaves. */
  lemma TakesLeases(s: System, l: Label, id: string)
    requires Inv(s) && Takes(s, l, id)
    ensures var e, e' := s.ledger.entries[id], Next(s, l).ledger.entries[id];
            && e.record.status in {Prepared, Retryable}
            && (e.lease.Some? ==> e.lease.value.expiresAt <= l.now)
            && e'.lease == Some(Lease(l.workerId, l.now + l.leaseFor))
            && e'.record == e.record.(version := e.record.version + 1, updatedAt := l.now)
  {
    hide Inv;
    assert id in l.ids;
  }

  /** A free effect can be taken by whoever is idle. */
  lemma FreeIsTaken(s: System, a: nat, worker: string, at: int, leaseFor: int, id: string)
    requires Pc(s, a).Idle? && id in s.ledger.entries
    requires var e := s.ledger.entries[id];
             e.record.status in {Prepared, Retryable} && (e.lease.Some? ==> e.lease.value.expiresAt <= at)
    ensures Takes(s, Claim(a, worker, at, [id], leaseFor), id)
  {
    var ids := [id];
    assert ids[0] in ids;
  }

  /**
   * Two claims of one effect that nobody wrote in between are at least the first one's lease apart, whatever
   * else the run does; and as soon as the lease is over, any idle actor's claim takes the effect.
   */
  lemma ClaimsApart(secret: string, now: int, run: seq<Label>, first: Label, between: seq<Label>, second: Label, id: string)
    requires Takes(After(Start(secret, now), run), first, id)
    requires var s2 := Next(After(Start(secret, now), run), first);
             var s3 := After(s2, between);
             && id in s2.ledger.entries && id in s3.ledger.entries
             && s3.ledger.entries[id].record.version == s2.ledger.entries[id].record.version
    ensures var s3 := After(Next(After(Start(secret, now), run), first), between);
            && (Takes(s3, second, id) ==> first.now + first.leaseFor <= second.now)
            && (second.Claim? && Pc(s3, second.a).Idle? && second.ids == [id] && first.now + first.leaseFor <= second.now ==>
                  Takes(s3, second, id))
  {
    hide After, Next, Inv, Grows, Takes;
    var s1 := After(Start(secret, now), run);
    StartOk(secret, now);
    RunKeeps(Start(secret, now), run);
    ClaimTaken(s1, first);
    TakesLeases(s1, first, id);
    var s2 := Next(s1, first);
    var s3 := After(s2, between);
    NextKeeps(s1, first);
    RunKeeps(s2, between);
    RunGrows(s2, between);
    SameVersionSameLease(s2.ledger, s3.ledger, id);
    if Takes(s3, second, id) {
      ClaimTaken(s3, second);
      TakesLeases(s3, second, id);
    }
    if second.Claim? && Pc(s3, second.a).Idle? && second.ids == [id] && first.now + first.leaseFor <= second.now {
      FreeIsTaken(s3, second.a, second.workerId, second.now, second.leaseFor, id);
    }
  }

  lemma ClaimTaken(s: System, l: Label)
    requires exists id :: Takes(s, l, id)
    ensures l.Claim?
  {
    hide Next;
  }

  lemma SameVersionSameLease(l: Ledger, l': Ledger, id: string)
    requires Grows(l, l') && id in l.entries && id in l'.entries
    requires l'.entries[id].record.version == l.entries[id].record.version
    ensures l'.entries[id].record == l.entries[id].record && l'.entries[id].lease == l.entries[id].lease
  {
    assert EntryGrows(l.entries[id], l'.entries[id]);
  }
}
