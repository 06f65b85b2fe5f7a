/** A create task adds exactly the runs that are wanted and neither there nor cancelled. */
module CronExpansion {
  import opened CronSyntax
  import opened CronStore
  import opened CronRuns

  /** The ids minted for these minutes are new and distinct. */
  ghost predicate Minted(t: Tables, k: Task, minutes: set<nat>) {
    && (forall m | m in minutes :: Unused(t, k.mint(m)))
    && (forall m, n | m in minutes && n in minutes && k.mint(m) == k.mint(n) :: m == n)
  }

  /** A create task of a tick on the minute that is past. */
  predicate Ticked(k: Task, window: nat) {
    k.from % 60 == 0 && k.from <= k.now && k.window == window
  }

  /** Moreover it is not handled at the very second of one of its window minutes; before
      the first of them will do. */
  predicate Prompt(k: Task, window: nat) { Ticked(k, window) && !InWindow(k, k.now) }

  function NewSlot(p: Parent, k: Task, m: nat): SlotKey { SlotOf(RunKey(p.id, m), RunAt(p, k, m)) }

  /** The tables after `AddRuns`, entry by entry. */
  lemma AddedSlots(t: Tables, p: Parent, k: Task, minutes: set<nat>)
    ensures forall s :: s in AddRuns(t, p, k, minutes).schedules <==>
      s in t.schedules || (s.minute in minutes && s == NewSlot(p, k, s.minute))
    ensures forall s | s in AddRuns(t, p, k, minutes).schedules ::
      AddRuns(t, p, k, minutes).schedules[s] == if s.minute in minutes && s == NewSlot(p, k, s.minute)
        then Slot(Some(p.id), p.payload, p.callback) else t.schedules[s]
  {
  }

  lemma AddedRecords(t: Tables, p: Parent, k: Task, minutes: set<nat>)
    ensures forall r :: r in AddRuns(t, p, k, minutes).runs <==>
      r in t.runs || (r.parent == p.id && r.minute in minutes)
    ensures forall r | r in AddRuns(t, p, k, minutes).runs ::
      AddRuns(t, p, k, minutes).runs[r] == if r.parent == p.id && r.minute in minutes
        then RunAt(p, k, r.minute) else t.runs[r]
  {
  }

  lemma AddedRuns(t: Tables, p: Parent, k: Task, minutes: set<nat>)
    requires Minted(t, k, minutes)
    ensures forall s, q :: IsRun(AddRuns(t, p, k, minutes), s, q) <==>
      IsRun(t, s, q) || (q == p.id && s.minute in minutes && s == NewSlot(p, k, s.minute))
  {
  }

  lemma AddPictured(t: Tables, pic: Picture, p: Parent, k: Task, minutes: set<nat>)
    requires Pictured(t, pic) && p.id in pic.at && Minted(t, k, minutes) && minutes !! pic.at[p.id]
    ensures Pictured(AddRuns(t, p, k, minutes), pic.(at := pic.at[p.id := pic.at[p.id] + minutes]))
  {
    var t', pic' := AddRuns(t, p, k, minutes), pic.(at := pic.at[p.id := pic.at[p.id] + minutes]);
    AddedRuns(t, p, k, minutes);
    assert t'.byId == t.byId;
    hide AddRuns, Minted;
    assert pic'.at.Keys == t'.byId.Keys;
    forall q, m | q in pic'.at && m in pic'.at[q] ensures HasRun(t', q, m) {
      if q == p.id && m in minutes {
        assert IsRun(t', NewSlot(p, k, m), q);
      } else {
        assert HasRun(t, q, m);
        var l :| IsRun(t, l, q) && l.minute == m;
        assert IsRun(t', l, q);
      }
    }
  }

  lemma AddRecorded(t: Tables, now: nat, p: Parent, k: Task, minutes: set<nat>)
    requires Recorded(t, now) && Minted(t, k, minutes) && minutes !! FutureMinutes(t, p.id, now)
    requires forall m | m in minutes :: m > now
    ensures Recorded(AddRuns(t, p, k, minutes), now)
  {
    AddedRuns(t, p, k, minutes);
    AddedRecords(t, p, k, minutes);
    hide AddRuns, Minted;
    forall r | r in t.runs && r.parent == p.id && r.minute > now ensures r.minute !in minutes {
      assert r in FutureKeys(t, p.id, now);
      assert r.minute in FutureMinutes(t, p.id, now);
    }
  }

  lemma AddPointHome(t: Tables, p: Parent, k: Task, minutes: set<nat>)
    requires PointHome(t) && Minted(t, k, minutes)
    ensures PointHome(AddRuns(t, p, k, minutes))
  {
    var t' := AddRuns(t, p, k, minutes);
    AddedSlots(t, p, k, minutes);
    AddedRecords(t, p, k, minutes);
    hide AddRuns;
    forall r | r in t'.runs && SlotOf(r, t'.runs[r]) in t'.schedules
      ensures t'.schedules[SlotOf(r, t'.runs[r])].parent == Some(r.parent)
    {
      var s := SlotOf(r, t'.runs[r]);
      if r.parent == p.id && r.minute in minutes {
        assert s == NewSlot(p, k, r.minute);
      } else {
        assert s.id == t.runs[r].id;
      }
    }
  }

  lemma AddInBounds(t: Tables, now: nat, window: nat, p: Parent, k: Task, minutes: set<nat>)
    requires InBounds(t, now, window) && p.id in t.byId
    requires forall m | m in minutes :: m % 60 == 0 && m <= MinuteOf(now) + 60 * window
    ensures InBounds(AddRuns(t, p, k, minutes), now, window)
  {
  }

  lemma AddAccounted(t: Tables, pic: Picture, now: nat, p: Parent, k: Task, minutes: set<nat>)
    requires Accounted(t, pic, now) && p.id in pic.at
    ensures Accounted(AddRuns(t, p, k, minutes), pic.(at := pic.at[p.id := pic.at[p.id] + minutes]), now)
  {
    var t' := AddRuns(t, p, k, minutes);
    AddedRecords(t, p, k, minutes);
    assert t'.byId == t.byId;
    hide AddRuns, RunAt;
    assert forall q :: Live(t', q) == Live(t, q);
    hide Live;
    var pic' := pic.(at := pic.at[p.id := pic.at[p.id] + minutes]);
    assert forall q | q in pic.at :: q in pic'.at && pic.at[q] <= pic'.at[q];
    forall r | r in t'.runs && r.minute > now && Live(t', r.parent)
      ensures (r.parent in pic'.at && r.minute in pic'.at[r.parent]) || r in pic'.off
    {
      if r in t.runs { assert (r.parent in pic.at && r.minute in pic.at[r.parent]) || r in pic.off; }
    }
  }

  lemma AddUnique(t: Tables, p: Parent, k: Task, minutes: set<nat>)
    requires IdsUnique(t) && Minted(t, k, minutes)
    ensures IdsUnique(AddRuns(t, p, k, minutes))
  {
  }

  lemma AddKeeps(t: Tables, pic: Picture, now: nat, window: nat, p: Parent, k: Task, minutes: set<nat>)
    requires Inv(t, pic, now, window) && p.id in pic.at && Minted(t, k, minutes)
    requires minutes !! FutureMinutes(t, p.id, now) && minutes !! pic.at[p.id]
    requires forall m | m in minutes :: m > now && m % 60 == 0 && m <= MinuteOf(now) + 60 * window
    ensures Inv(AddRuns(t, p, k, minutes), pic.(at := pic.at[p.id := pic.at[p.id] + minutes]), now, window)
  {
    hide Recorded, InBounds, PointHome, Accounted, Mirror, CronsSet, IdsUnique, FutureMinutes, Minted;
    assert p.id in t.byId;
    hide Pictured;
    SameParents(t, AddRuns(t, p, k, minutes));
    AddPictured(t, pic, p, k, minutes);
    AddRecorded(t, now, p, k, minutes);
    AddInBounds(t, now, window, p, k, minutes);
    AddPointHome(t, p, k, minutes);
    AddAccounted(t, pic, now, p, k, minutes);
    AddUnique(t, p, k, minutes);
  }

  /** A parent's future runs are recorded, so a minute without a record has no run. */
  lemma PicturedIsRecorded(t: Tables, pic: Picture, now: nat, p: Uuid, m: nat)
    requires Pictured(t, pic) && Recorded(t, now) && p in pic.at && m in pic.at[p] && m > now
    ensures m in FutureMinutes(t, p, now)
  {
  }

  /** The minutes at which runs of a parent were cancelled. */
  function Cancelled(pic: Picture, p: Uuid): set<nat> { set r | r in pic.off && r.parent == p :: r.minute }

  /** The picture after a create task: every wanted minute that was not cancelled. */
  function Expanded(pic: Picture, p: Parent, k: Task, lim: Limits): Picture
    requires p.id in pic.at
  {
    pic.(at := pic.at[p.id := pic.at[p.id] + (WantedMinutes(p, k, lim) - Cancelled(pic, p.id))])
  }

  lemma WantedIsAhead(p: Parent, k: Task, window: nat, lim: Limits, m: nat)
    requires Prompt(k, window) && m in WantedMinutes(p, k, lim)
    ensures m > k.now && m % 60 == 0 && m <= MinuteOf(k.now) + 60 * window
  {
  }

  /** Skipping the minutes that have records amounts to skipping the cancelled ones. */
  lemma SkippedAre(t: Tables, pic: Picture, window: nat, p: Parent, k: Task, lim: Limits)
    requires Pictured(t, pic) && Recorded(t, k.now) && RecordsSound(t, pic, k.now, window) && p.id in pic.at &&
      Live(t, p.id) && Prompt(k, window)
    ensures pic.at[p.id] + (WantedMinutes(p, k, lim) - FutureMinutes(t, p.id, k.now)) ==
      pic.at[p.id] + (WantedMinutes(p, k, lim) - Cancelled(pic, p.id))
  {
    hide Pictured, Recorded;
    forall m | m in WantedMinutes(p, k, lim) && m !in pic.at[p.id]
      ensures m in FutureMinutes(t, p.id, k.now) <==> m in Cancelled(pic, p.id)
    {
      WantedIsAhead(p, k, window, lim, m);
      hide WantedMinutes;
      var r := RunKey(p.id, m);
      assert r in FutureKeys(t, p.id, k.now) <==> r in t.runs;
      assert m in Cancelled(pic, p.id) <==> r in pic.off;
    }
  }

  /** `createSchedules` does to the tables what `Expanded` does to the picture. */
  lemma ExpandKeeps(t: Tables, pic: Picture, window: nat, p: Parent, k: Task, lim: Limits)
    requires Inv(t, pic, k.now, window) && p.id in pic.at && Live(t, p.id) && Prompt(k, window)
    requires Minted(t, k, WantedMinutes(p, k, lim))
    ensures Inv(Expand(t, p, k, FutureMinutes(t, p.id, k.now), lim), Expanded(pic, p, k, lim), k.now, window)
  {
    hide WantedMinutes, FutureMinutes, Pictured, Recorded, RecordsSound, Mirror, CronsSet, IdsUnique, Live;
    var minutes := WantedMinutes(p, k, lim) - FutureMinutes(t, p.id, k.now);
    assert Minted(t, k, minutes);
    hide Minted;
    forall m | m in minutes
      ensures m > k.now && m % 60 == 0 && m <= MinuteOf(k.now) + 60 * window && m !in pic.at[p.id] {
      WantedIsAhead(p, k, window, lim, m);
      if m in pic.at[p.id] { PicturedIsRecorded(t, pic, k.now, p.id, m); }
    }
    SkippedAre(t, pic, window, p, k, lim);
    AddKeeps(t, pic, k.now, window, p, k, minutes);
  }

  /** The minutes of a task that were too far ahead at its first handling and no longer are
      at a later one. */
  function Late(p: Parent, k: Task, again: Task, lim: Limits): set<nat> {
    set m | m in WantedMinutes(p, again, lim) && m > k.now + lim.maxAhead
  }

  lemma WantedAgain(p: Parent, k: Task, again: Task, window: nat, lim: Limits)
    requires Prompt(k, window) && Prompt(again, window) && again.now >= k.now
    requires again == k.(mint := again.mint, place := again.place, now := again.now)
    ensures forall m | m in WantedMinutes(p, again, lim) :: m in WantedMinutes(p, k, lim) || m in Late(p, k, again, lim)
    ensures WantedMinutes(p, k, lim) !! Late(p, k, again, lim) && Late(p, k, again, lim) <= WantedMinutes(p, again, lim)
    ensures lim.maxAhead >= 60 * window ==> Late(p, k, again, lim) == {}
  {
    hide Matches;
  }

  /** Handling a task again, at once or later and whatever ids it mints, adds runs for exactly the
      minutes that had been too far ahead; there are none if runs may lie a whole window ahead. */
  lemma ExpandTwice(t: Tables, p: Parent, k: Task, again: Task, window: nat, lim: Limits)
    requires Prompt(k, window) && Prompt(again, window) && again.now >= k.now
    requires again == k.(mint := again.mint, place := again.place, now := again.now)
    ensures var t' := Expand(t, p, k, FutureMinutes(t, p.id, k.now), lim);
            var t'' := Expand(t', p, again, FutureMinutes(t', p.id, again.now), lim);
            && t'' == AddRuns(t', p, again, Late(p, k, again, lim) - FutureMinutes(t, p.id, k.now))
            && (again.now == k.now || lim.maxAhead >= 60 * window ==> t'' == t')
  {
    hide WantedMinutes, FutureMinutes, AddRuns, Late, Prompt;
    var t' := Expand(t, p, k, FutureMinutes(t, p.id, k.now), lim);
    WantedAgain(p, k, again, window, lim);
    if again.now == k.now { NoneLate(p, k, again, lim); }
    AddNone(t', p, again);
    forall m | m in WantedMinutes(p, again, lim)
      ensures m in FutureMinutes(t', p.id, again.now) <==>
        m in WantedMinutes(p, k, lim) || m in FutureMinutes(t, p.id, k.now)
    {
      RecordedAgain(t, p, k, again, window, lim, m);
    }
    assert WantedMinutes(p, again, lim) - FutureMinutes(t', p.id, again.now)
        == Late(p, k, again, lim) - FutureMinutes(t, p.id, k.now);
    assert {} - FutureMinutes(t, p.id, k.now) == {};
  }

  lemma RecordedAgain(t: Tables, p: Parent, k: Task, again: Task, window: nat, lim: Limits, m: nat)
    requires Prompt(again, window) && again.now >= k.now && m in WantedMinutes(p, again, lim)
    ensures var t' := Expand(t, p, k, FutureMinutes(t, p.id, k.now), lim);
      m in FutureMinutes(t', p.id, again.now) <==> m in WantedMinutes(p, k, lim) || m in FutureMinutes(t, p.id, k.now)
  {
    hide WantedMinutes, AddRuns, FutureMinutes;
    var minutes := WantedMinutes(p, k, lim) - FutureMinutes(t, p.id, k.now);
    WantedIsAhead(p, again, window, lim, m);
    AddedRecords(t, p, k, minutes);
    HasRecord(t, p.id, k.now, m);
    HasRecord(AddRuns(t, p, k, minutes), p.id, again.now, m);
  }

  lemma HasRecord(t: Tables, p: Uuid, now: nat, m: nat)
    requires m > now
    ensures m in FutureMinutes(t, p, now) <==> RunKey(p, m) in t.runs
  {
    if RunKey(p, m) in t.runs { assert RunKey(p, m) in FutureKeys(t, p, now); }
  }

  lemma NoneLate(p: Parent, k: Task, again: Task, lim: Limits)
    requires again.now == k.now
    ensures Late(p, k, again, lim) == {}
  {
  }

  lemma AddNone(t: Tables, p: Parent, k: Task)
    ensures AddRuns(t, p, k, {}) == t
  {
  }

  ghost predicate HasTwoRuns(t: Tables, p: Uuid) {
    exists a, b :: IsRun(t, a, p) && IsRun(t, b, p) && a.minute == b.minute && a != b
  }

  /** Whatever a task found to exist, when and by which worker: it gives a minute a second run
      exactly when it wants one that has a run and that it did not find. */
  lemma DuplicatesIff(
      t: Tables, pic: Picture, now: nat, window: nat, p: Parent, k: Task, existing: set<nat>, lim: Limits)
    requires Inv(t, pic, now, window) && p.id in pic.at && Minted(t, k, WantedMinutes(p, k, lim))
    ensures HasTwoRuns(Expand(t, p, k, existing, lim), p.id) <==>
      exists m :: m in WantedMinutes(p, k, lim) && m !in existing && m in pic.at[p.id]
  {
    hide WantedMinutes, Recorded, RecordsSound, Mirror, CronsSet, IdsUnique, AddRuns;
    var minutes := WantedMinutes(p, k, lim) - existing;
    var t' := AddRuns(t, p, k, minutes);
    AddedRuns(t, p, k, minutes);
    if m :| m in WantedMinutes(p, k, lim) && m !in existing && m in pic.at[p.id] {
      assert HasRun(t, p.id, m);
      var a :| IsRun(t, a, p.id) && a.minute == m;
      var b := NewSlot(p, k, m);
      assert IsRun(t', a, p.id) && IsRun(t', b, p.id) && a.id != b.id;
    }
    if HasTwoRuns(t', p.id) {
      var a, b :| IsRun(t', a, p.id) && IsRun(t', b, p.id) && a.minute == b.minute && a != b;
      assert a.minute in minutes && a.minute in pic.at[p.id];
    }
  }

  /** Such a second run takes over the record of the first, which a pause then leaves behind: the
      runs to come stay recorded exactly when none of them gets a second. */
  lemma StaysRecordedIff(
      t: Tables, pic: Picture, now: nat, window: nat, p: Parent, k: Task, existing: set<nat>, lim: Limits)
    requires Inv(t, pic, now, window) && p.id in pic.at && Minted(t, k, WantedMinutes(p, k, lim))
    ensures Recorded(Expand(t, p, k, existing, lim), now) <==>
      forall m | m in WantedMinutes(p, k, lim) && m > now && m !in existing :: m !in pic.at[p.id]
  {
    hide WantedMinutes, RecordsSound, Mirror, CronsSet, IdsUnique, AddRuns;
    var minutes := WantedMinutes(p, k, lim) - existing;
    var t' := AddRuns(t, p, k, minutes);
    AddedRuns(t, p, k, minutes);
    AddedRecords(t, p, k, minutes);
    if m :| m in WantedMinutes(p, k, lim) && m > now && m !in existing && m in pic.at[p.id] {
      assert HasRun(t, p.id, m);
      var a :| IsRun(t, a, p.id) && a.minute == m;
      assert IsRun(t', a, p.id) && t'.runs[RunKey(p.id, m)].id != a.id;
    } else {
      hide Minted;
      forall a, q | IsRun(t', a, q) && a.minute > now
        ensures RunKey(q, a.minute) in t'.runs && SlotOf(RunKey(q, a.minute), t'.runs[RunKey(q, a.minute)]) == a
      {
        if q == p.id && a.minute in minutes { assert !IsRun(t, a, q); }
      }
    }
  }

  /** Looked up and handled at once, a task does so exactly at the very second of a wanted
      minute that has a run. */
  lemma DuplicatesAtOnceIff(t: Tables, pic: Picture, window: nat, p: Parent, k: Task, lim: Limits)
    requires Inv(t, pic, k.now, window) && p.id in pic.at && Minted(t, k, WantedMinutes(p, k, lim))
    ensures HasTwoRuns(Expand(t, p, k, FutureMinutes(t, p.id, k.now), lim), p.id) <==>
      k.now in WantedMinutes(p, k, lim) && k.now in pic.at[p.id]
  {
    hide WantedMinutes, FutureMinutes, Pictured, Recorded, RecordsSound, Mirror, CronsSet, IdsUnique, AddRuns;
    var wanted, future := WantedMinutes(p, k, lim), FutureMinutes(t, p.id, k.now);
    DuplicatesIff(t, pic, k.now, window, p, k, future, lim);
    FutureIsAhead(t, p.id, k.now);
    forall m | m in wanted && m !in future && m in pic.at[p.id] ensures m == k.now {
      if m > k.now { PicturedIsRecorded(t, pic, k.now, p.id, m); }
      WantedIsNotPast(p, k, lim, m);
    }
  }

  /** Two workers take tasks of one parent, and the second creates its runs by what it looked up
      before the first did: a minute gets two runs exactly when both want it, it had neither run
      nor record, or when the second wants one that had a run it did not find. */
  lemma OverlappingWorkersIff(
      t: Tables, pic: Picture, window: nat, p: Parent, first: Task, second: Task, existing: set<nat>, lim: Limits)
    requires Inv(t, pic, first.now, window) && p.id in pic.at && Live(t, p.id) && Prompt(first, window)
    requires Minted(t, first, WantedMinutes(p, first, lim))
    requires var t' := Expand(t, p, first, FutureMinutes(t, p.id, first.now), lim);
      Minted(t', second, WantedMinutes(p, second, lim))
    ensures var t' := Expand(t, p, first, FutureMinutes(t, p.id, first.now), lim);
      HasTwoRuns(Expand(t', p, second, existing, lim), p.id) <==>
        exists m :: m in WantedMinutes(p, second, lim) && m !in existing
          && (m in pic.at[p.id] || (m in WantedMinutes(p, first, lim) && m !in Cancelled(pic, p.id)))
  {
    hide WantedMinutes, FutureMinutes, Inv, AddRuns, Live, Prompt, Minted, HasTwoRuns, Expand;
    var t' := Expand(t, p, first, FutureMinutes(t, p.id, first.now), lim);
    ExpandKeeps(t, pic, window, p, first, lim);
    var pic' := Expanded(pic, p, first, lim);
    DuplicatesIff(t', pic', first.now, window, p, second, existing, lim);
    assert forall m :: m in pic'.at[p.id] <==>
      m in pic.at[p.id] || (m in WantedMinutes(p, first, lim) && m !in Cancelled(pic, p.id));
  }

  lemma FutureIsAhead(t: Tables, p: Uuid, now: nat)
    ensures forall m | m in FutureMinutes(t, p, now) :: m > now
  {
  }

  lemma WantedIsNotPast(p: Parent, k: Task, lim: Limits, m: nat)
    requires m in WantedMinutes(p, k, lim)
    ensures m >= k.now
  {
  }
}
