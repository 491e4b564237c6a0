/** What every transaction on an event keeps true of its registration rows. */
module RegistrationInvariant {
  import opened Wrappers
  import opened RegistrationRows

  /** One row on its own: nullable columns follow the status, and the money follows the fee. */
  ghost predicate RowOk(ev: Event, r: Reg) {
    && (r.status == PendingPayment <==> r.expiresAt.Some?)
    && (Waiting(r) <==> r.waitlistPos.Some?)
    && (r.waitlistPos.Some? ==> r.waitlistPos.value <= ev.waitlistCounter)
    && (r.status == PendingPayment || Waiting(r) ==> ev.status == Published)
    && (ev.feeCents > 0 && r.status == Paid ==> r.intent.Some?)
    && (ev.feeCents == 0 ==> r.status != PendingPayment && r.intent.None?)
  }

  ghost predicate RowsOk(ev: Event, regs: seq<Reg>) {
    forall i :: 0 <= i < |regs| ==> RowOk(ev, regs[i])
  }

  /** registrations_one_active_idx: at most one active row per user. */
  ghost predicate OneActivePerUser(regs: seq<Reg>) {
    forall i, j :: 0 <= i < j < |regs| && Active(regs[i]) && Active(regs[j]) ==> regs[i].user != regs[j].user
  }

  ghost predicate DistinctPositions(regs: seq<Reg>) {
    forall i, j :: 0 <= i < j < |regs| && Waiting(regs[i]) && Waiting(regs[j]) ==>
        regs[i].waitlistPos != regs[j].waitlistPos
  }

  /** Kept by every single row update. */
  ghost predicate TableOk(ev: Event, regs: seq<Reg>) {
    && CountOccupied(regs) <= ev.maxParticipants
    && RowsOk(ev, regs)
    && OneActivePerUser(regs)
    && DistinctPositions(regs)
    && (ev.status == Draft ==> regs == [])
  }

  /** Whoever waits, waits because the event is full. */
  ghost predicate WaitsOnlyWhenFull(ev: Event, regs: seq<Reg>) {
    CountWaiting(regs) > 0 ==> CountOccupied(regs) >= ev.maxParticipants
  }

  /** Kept by every transaction. */
  ghost predicate DbOk(db: Db) {
    TableOk(db.event, db.regs) && WaitsOnlyWhenFull(db.event, db.regs)
  }

  // ---------------------------------------------------------------------
  // One row at a time
  // ---------------------------------------------------------------------

  ghost predicate NoOtherActive(regs: seq<Reg>, i: nat, user: int) {
    forall j :: 0 <= j < |regs| && j != i && Active(regs[j]) ==> regs[j].user != user
  }

  /** A row update that may be made on its own. */
  ghost predicate LegalUpdate(ev: Event, regs: seq<Reg>, i: nat, r: Reg) {
    && i < |regs|
    && RowOk(ev, r) && r.user == regs[i].user
    && (Waiting(r) ==> Waiting(regs[i]) && r.waitlistPos == regs[i].waitlistPos)
    && (Active(r) ==> Active(regs[i]) || NoOtherActive(regs, i, r.user))
    && (Holds(r) ==> Holds(regs[i]) || CountOccupied(regs) < ev.maxParticipants)
  }

  lemma UpdateKeepsTable(ev: Event, regs: seq<Reg>, i: nat, r: Reg)
    requires TableOk(ev, regs) && LegalUpdate(ev, regs, i, r)
    ensures TableOk(ev, regs[i := r])
  {
    CountsAfterUpdate(regs, i, r);
    UpdateKeepsOneActive(regs, i, r);
    UpdateKeepsPositions(regs, i, r);
    hide RowOk;
    assert RowsOk(ev, regs[i := r]);
  }

  lemma UpdateKeepsOneActive(regs: seq<Reg>, i: nat, r: Reg)
    requires OneActivePerUser(regs) && i < |regs| && r.user == regs[i].user
    requires Active(r) ==> Active(regs[i]) || NoOtherActive(regs, i, r.user)
    ensures OneActivePerUser(regs[i := r])
  {
  }

  lemma UpdateKeepsPositions(regs: seq<Reg>, i: nat, r: Reg)
    requires DistinctPositions(regs) && i < |regs|
    requires Waiting(r) ==> Waiting(regs[i]) && r.waitlistPos == regs[i].waitlistPos
    ensures DistinctPositions(regs[i := r])
  {
  }

  lemma AppendKeepsTable(ev: Event, ev': Event, regs: seq<Reg>, r: Reg)
    requires TableOk(ev, regs) && ev.status == Published
    requires ev' == ev || ev' == ev.(waitlistCounter := ev.waitlistCounter + 1)
    requires RowOk(ev', r) && NoOtherActive(regs, |regs|, r.user)
    requires Holds(r) ==> CountOccupied(regs) < ev.maxParticipants
    requires Waiting(r) ==> r.waitlistPos == Some(ev.waitlistCounter + 1)
    ensures TableOk(ev', regs + [r])
  {
    CountsAfterAppend(regs, r);
    AppendKeepsRows(ev, ev', regs, r);
    AppendKeepsOneActive(regs, r);
    AppendKeepsPositions(ev, regs, r);
    hide RowsOk, OneActivePerUser, DistinctPositions;
  }

  lemma AppendKeepsRows(ev: Event, ev': Event, regs: seq<Reg>, r: Reg)
    requires RowsOk(ev, regs) && RowOk(ev', r)
    requires ev' == ev || ev' == ev.(waitlistCounter := ev.waitlistCounter + 1)
    ensures RowsOk(ev', regs + [r])
  {
    forall i | 0 <= i < |regs| ensures RowOk(ev', regs[i]) {
      assert RowOk(ev, regs[i]);
    }
  }

  lemma AppendKeepsOneActive(regs: seq<Reg>, r: Reg)
    requires OneActivePerUser(regs) && NoOtherActive(regs, |regs|, r.user)
    ensures OneActivePerUser(regs + [r])
  {
  }

  lemma AppendKeepsPositions(ev: Event, regs: seq<Reg>, r: Reg)
    requires RowsOk(ev, regs) && DistinctPositions(regs)
    requires Waiting(r) ==> r.waitlistPos == Some(ev.waitlistCounter + 1)
    ensures DistinctPositions(regs + [r])
  {
    forall i | 0 <= i < |regs| && Waiting(regs[i]) ensures regs[i].waitlistPos != Some(ev.waitlistCounter + 1) {
      assert RowOk(ev, regs[i]);
    }
  }

  // ---------------------------------------------------------------------
  // Promotion
  // ---------------------------------------------------------------------

  /** What promotion leaves alone: payment data, users, and everyone who was not waiting. */
  ghost predicate OnlyPromotes(ev: Event, before: seq<Reg>, after: seq<Reg>, now: int) {
    && |after| == |before|
    && forall i :: 0 <= i < |before| ==>
         after[i] == before[i] || (Waiting(before[i]) && after[i] == Promoted(ev, before[i], now))
  }

  /** Whoever was promoted stood before everyone who still waits. */
  ghost predicate FrontOfQueue(before: seq<Reg>, after: seq<Reg>)
    requires |before| == |after|
  {
    forall i, j :: 0 <= i < |before| && 0 <= j < |before| && Waiting(before[i]) && !Waiting(after[i])
        && Waiting(after[j])
      ==> PosBefore(before[i], before[j])
  }

  function Min(a: int, b: int): int {
    if a < b then a else b
  }

  lemma NextPromotion(ev: Event, regs: seq<Reg>, now: int)
    requires TableOk(ev, regs) && CountOccupied(regs) < ev.maxParticipants && NextWaitlisted(regs).Some?
    ensures var i := NextWaitlisted(regs).value;
            LegalUpdate(ev, regs, i, Promoted(ev, regs[i], now))
  {
    var i := NextWaitlisted(regs).value;
    assert RowOk(ev, regs[i]);
  }

  /** The next in line stands before everyone else who waits. */
  lemma NextIsFirst(ev: Event, regs: seq<Reg>, i: nat)
    requires RowsOk(ev, regs) && DistinctPositions(regs) && NextWaitlisted(regs) == Some(i)
    ensures forall j :: 0 <= j < |regs| && j != i && Waiting(regs[j]) ==> PosBefore(regs[i], regs[j])
  {
    assert RowOk(ev, regs[i]);
    forall j | 0 <= j < |regs| && j != i && Waiting(regs[j]) ensures PosBefore(regs[i], regs[j]) {
      assert RowOk(ev, regs[j]);
      assert regs[i].waitlistPos != regs[j].waitlistPos;
    }
  }

  lemma {:induction false} PromoteKeepsTable(ev: Event, regs: seq<Reg>, now: int)
    requires TableOk(ev, regs)
    ensures var after := Promote(ev, regs, now);
            && TableOk(ev, after) && WaitsOnlyWhenFull(ev, after)
            && OnlyPromotes(ev, regs, after, now)
    decreases CountWaiting(regs)
  {
    NobodyWaits(regs);
    if CountOccupied(regs) < ev.maxParticipants && NextWaitlisted(regs).Some? {
      var i := NextWaitlisted(regs).value;
      var r := Promoted(ev, regs[i], now);
      NextPromotion(ev, regs, now);
      UpdateKeepsTable(ev, regs, i, r);
      CountsAfterUpdate(regs, i, r);
      hide TableOk, RowOk, LegalUpdate;
      PromoteKeepsTable(ev, regs[i := r], now);
    }
  }

  lemma PromotionStep(ev: Event, regs: seq<Reg>, now: int) returns (i: nat, r: Reg)
    requires TableOk(ev, regs) && CountOccupied(regs) < ev.maxParticipants && NextWaitlisted(regs).Some?
    ensures NextWaitlisted(regs) == Some(i) && i < |regs| && r == Promoted(ev, regs[i], now) && !Waiting(r)
    ensures TableOk(ev, regs[i := r]) && Promote(ev, regs, now) == Promote(ev, regs[i := r], now)
    ensures CountOccupied(regs[i := r]) == CountOccupied(regs) + 1
    ensures CountWaiting(regs[i := r]) == CountWaiting(regs) - 1
  {
    i := NextWaitlisted(regs).value;
    r := Promoted(ev, regs[i], now);
    NextPromotion(ev, regs, now);
    UpdateKeepsTable(ev, regs, i, r);
    CountsAfterUpdate(regs, i, r);
  }

  lemma {:induction false} PromoteCounts(ev: Event, regs: seq<Reg>, now: int)
    requires TableOk(ev, regs)
    ensures var after := Promote(ev, regs, now);
            var promoted := Min(ev.maxParticipants - CountOccupied(regs), CountWaiting(regs));
            && CountOccupied(after) == CountOccupied(regs) + promoted
            && CountWaiting(after) == CountWaiting(regs) - promoted
    decreases CountWaiting(regs)
  {
    NobodyWaits(regs);
    if CountOccupied(regs) < ev.maxParticipants && NextWaitlisted(regs).Some? {
      var i, r := PromotionStep(ev, regs, now);
      hide RowsOk, OneActivePerUser, DistinctPositions;
      PromoteCounts(ev, regs[i := r], now);
    }
  }

  lemma {:induction false} PromoteOrder(ev: Event, regs: seq<Reg>, now: int)
    requires TableOk(ev, regs)
    ensures |Promote(ev, regs, now)| == |regs| && FrontOfQueue(regs, Promote(ev, regs, now))
    decreases CountWaiting(regs)
  {
    PromoteKeepsTable(ev, regs, now);
    if CountOccupied(regs) < ev.maxParticipants && NextWaitlisted(regs).Some? {
      var i, r := PromotionStep(ev, regs, now);
      NextIsFirst(ev, regs, i);
      PromoteKeepsTable(ev, regs[i := r], now);
      hide TableOk, PosBefore, OnlyPromotes, FrontOfQueue;
      PromoteOrder(ev, regs[i := r], now);
      StillWaitingUnchanged(ev, regs[i := r], Promote(ev, regs, now), now);
      QueueStep(regs, i, r, Promote(ev, regs, now));
    }
  }

  /** Promotion touches waiting rows only. */
  lemma {:induction false} PromoteSparesOthers(ev: Event, regs: seq<Reg>, now: int, i: nat)
    requires i < |regs| && !Waiting(regs[i])
    ensures var after := Promote(ev, regs, now);
            |after| == |regs| && after[i] == regs[i]
    decreases CountWaiting(regs)
  {
    if CountOccupied(regs) < ev.maxParticipants && NextWaitlisted(regs).Some? {
      var k := NextWaitlisted(regs).value;
      CountsAfterUpdate(regs, k, Promoted(ev, regs[k], now));
      PromoteSparesOthers(ev, regs[k := Promoted(ev, regs[k], now)], now, i);
    }
  }


  /**
   Promotion takes exactly as many as there are free spots or waiting rows,
   whichever is fewer, and they are the ones with the smallest positions.
   */
  lemma PromoteExact(ev: Event, regs: seq<Reg>, now: int)
    requires TableOk(ev, regs)
    ensures var after := Promote(ev, regs, now);
            var promoted := Min(ev.maxParticipants - CountOccupied(regs), CountWaiting(regs));
            && CountOccupied(after) == CountOccupied(regs) + promoted
            && CountWaiting(after) == CountWaiting(regs) - promoted
            && OnlyPromotes(ev, regs, after, now)
            && FrontOfQueue(regs, after)
  {
    PromoteKeepsTable(ev, regs, now);
    PromoteCounts(ev, regs, now);
    PromoteOrder(ev, regs, now);
  }

  lemma StillWaitingUnchanged(ev: Event, before: seq<Reg>, after: seq<Reg>, now: int)
    requires OnlyPromotes(ev, before, after, now)
    ensures |before| == |after|
    ensures forall j :: 0 <= j < |before| && Waiting(after[j]) ==> after[j] == before[j]
  {
  }

  lemma QueueStep(regs: seq<Reg>, i: nat, r: Reg, after: seq<Reg>)
    requires i < |regs| == |after| && !Waiting(r)
    requires forall j :: 0 <= j < |regs| && j != i && Waiting(regs[j]) ==> PosBefore(regs[i], regs[j])
    requires FrontOfQueue(regs[i := r], after)
    requires forall j :: 0 <= j < |regs| && Waiting(after[j]) ==> after[j] == regs[i := r][j]
    ensures FrontOfQueue(regs, after)
  {
    forall k, j | 0 <= k < |regs| && 0 <= j < |regs| && Waiting(regs[k]) && !Waiting(after[k]) && Waiting(after[j])
      ensures PosBefore(regs[k], regs[j])
    {
      assert after[j] == regs[i := r][j];
      if k != i {
        assert regs[i := r][k] == regs[k];
      }
    }
  }
}
