/** The cron tables implement a simple picture: each recurring schedule has a set of
    minutes, and `schedules` holds exactly one run of it for each. */
module CronRuns {
  import opened CronSyntax
  import opened CronStore

  /** The simple picture: the minutes at which each recurring schedule has a run, and
      the runs that were cancelled one by one. */
  datatype Picture = Picture(at: map<Uuid, set<nat>>, off: set<RunKey>)

  function MinuteOf(now: nat): nat { now - now % 60 }

  ghost predicate IsRun(t: Tables, k: SlotKey, p: Uuid) { k in t.schedules && t.schedules[k].parent == Some(p) }

  ghost predicate HasRun(t: Tables, p: Uuid, m: nat) { exists k :: IsRun(t, k, p) && k.minute == m }

  /** Runs are at the minutes of the picture, once each. */
  ghost predicate Pictured(t: Tables, pic: Picture) {
    && pic.at.Keys == t.byId.Keys
    && (forall k, p :: IsRun(t, k, p) ==> p in pic.at && k.minute in pic.at[p])
    && (forall p, m :: p in pic.at && m in pic.at[p] ==> HasRun(t, p, m))
    && (forall k, l, p :: IsRun(t, k, p) && IsRun(t, l, p) && k.minute == l.minute ==> k == l)
  }

  /** Every run still to come is recorded under its parent and minute. */
  ghost predicate Recorded(t: Tables, now: nat) {
    forall k, p :: IsRun(t, k, p) && k.minute > now ==>
      RunKey(p, k.minute) in t.runs && SlotOf(RunKey(p, k.minute), t.runs[RunKey(p, k.minute)]) == k
  }

  ghost predicate Live(t: Tables, p: Uuid) { p in t.byId && t.byId[p].life != Deleted }

  /** Records point at no other parent's run. */
  ghost predicate PointHome(t: Tables) {
    forall r | r in t.runs :: SlotOf(r, t.runs[r]) in t.schedules ==>
      t.schedules[SlotOf(r, t.runs[r])].parent == Some(r.parent)
  }

  /** Records are of known parents and of this window. */
  ghost predicate InBounds(t: Tables, now: nat, window: nat) {
    forall r | r in t.runs :: r.parent in t.byId && r.minute % 60 == 0 && r.minute <= MinuteOf(now) + 60 * window
  }

  /** A record still to come, unless its parent is deleted, is of a run that is there or
      of one that was cancelled. */
  ghost predicate Accounted(t: Tables, pic: Picture, now: nat) {
    && (forall r | r in t.runs && r.minute > now && Live(t, r.parent) ::
      (r.parent in pic.at && r.minute in pic.at[r.parent]) || r in pic.off)
    && (forall r | r in pic.off && r.minute > now && Live(t, r.parent) :: r in t.runs)
  }

  ghost predicate RecordsSound(t: Tables, pic: Picture, now: nat, window: nat) {
    InBounds(t, now, window) && PointHome(t) && Accounted(t, pic, now)
  }

  /** The two tables of parents hold the same rows, under their own keys. */
  ghost predicate Mirror(t: Tables) {
    && (forall id | id in t.byId :: t.byId[id].id == id && KeyOf(t.byId[id]) in t.byPartition)
    && (forall k | k in t.byPartition :: k.id in t.byId && t.byPartition[k] == t.byId[k.id] && KeyOf(t.byId[k.id]) == k)
  }

  /** Every stored parent is recurring. */
  ghost predicate CronsSet(t: Tables) { forall id | id in t.byId :: t.byId[id].cron != "" }

  /** No two schedules share an id. */
  ghost predicate IdsUnique(t: Tables) {
    && (forall k | k in t.schedules :: k.id !in t.byId)
    && (forall k, l | k in t.schedules && l in t.schedules && k.id == l.id :: k == l)
  }

  ghost predicate Inv(t: Tables, pic: Picture, now: nat, window: nat) {
    && Pictured(t, pic) && Recorded(t, now) && RecordsSound(t, pic, now, window)
    && Mirror(t) && CronsSet(t) && IdsUnique(t)
  }

  /** An id that no schedule and no record has. */
  ghost predicate Unused(t: Tables, id: Uuid) {
    && id !in t.byId
    && (forall k | k in t.schedules :: k.id != id)
    && (forall r | r in t.runs :: t.runs[r].id != id)
  }

  lemma SameParents(t: Tables, t': Tables)
    requires t'.byId == t.byId && t'.byPartition == t.byPartition
    ensures Mirror(t') == Mirror(t) && CronsSet(t') == CronsSet(t)
  {
  }

  lemma MinuteMonotone(a: nat, b: nat)
    requires a <= b
    ensures MinuteOf(a) <= MinuteOf(b)
  {
  }

  lemma TimePasses(t: Tables, pic: Picture, now: nat, later: nat, window: nat)
    requires Inv(t, pic, now, window) && now <= later
    ensures Inv(t, pic, later, window)
  {
    MinuteMonotone(now, later);
    hide Pictured, Mirror, CronsSet, IdsUnique, IsRun;
  }

  // Writes to the parent tables alone

  lemma PutPictured(t: Tables, pic: Picture, p: Parent)
    requires Pictured(t, pic)
    ensures Pictured(Put(t, p), if p.id in t.byId then pic else pic.(at := pic.at[p.id := {}]))
  {
    var t' := Put(t, p);
    assert t'.byId.Keys == t.byId.Keys + {p.id};
    assert forall k, q :: IsRun(t', k, q) <==> IsRun(t, k, q);
    assert forall q, m :: HasRun(t, q, m) ==> HasRun(t', q, m);
  }

  lemma PutRecorded(t: Tables, now: nat, p: Parent)
    requires Recorded(t, now)
    ensures Recorded(Put(t, p), now)
  {
  }

  lemma PutRecords(t: Tables, pic: Picture, now: nat, window: nat, p: Parent)
    requires RecordsSound(t, pic, now, window) && p.id in t.byId && (t.byId[p.id].life == Deleted ==> p.life == Deleted)
    ensures RecordsSound(Put(t, p), pic, now, window)
  {
  }

  lemma CreateRecords(t: Tables, pic: Picture, now: nat, window: nat, p: Parent)
    requires RecordsSound(t, pic, now, window) && p.id !in t.byId
    requires forall r | r in pic.off :: r.parent in t.byId
    ensures RecordsSound(Put(t, p), pic.(at := pic.at[p.id := {}]), now, window)
  {
  }

  lemma PutMirrors(t: Tables, p: Parent)
    requires Mirror(t) && (p.id in t.byId ==> KeyOf(p) == KeyOf(t.byId[p.id]))
    ensures Mirror(Put(t, p))
  {
  }

  lemma PutCrons(t: Tables, p: Parent)
    requires CronsSet(t) && p.cron != ""
    ensures CronsSet(Put(t, p))
  {
  }

  /** A stored parent is rewritten under the same key. */
  lemma PutKeeps(t: Tables, pic: Picture, now: nat, window: nat, p: Parent)
    requires Inv(t, pic, now, window) && p.id in t.byId && KeyOf(p) == KeyOf(t.byId[p.id])
    requires p.cron != "" && (t.byId[p.id].life == Deleted ==> p.life == Deleted)
    ensures Inv(Put(t, p), pic, now, window)
  {
    hide Pictured, Recorded, RecordsSound, Mirror, CronsSet;
    PutPictured(t, pic, p);
    PutRecorded(t, now, p);
    PutRecords(t, pic, now, window, p);
    PutMirrors(t, p);
    PutCrons(t, p);
  }

  /** A new parent is written, with an id of its own. */
  lemma CreateKeeps(t: Tables, pic: Picture, now: nat, window: nat, p: Parent)
    requires Inv(t, pic, now, window) && Unused(t, p.id) && p.cron != ""
    requires forall r | r in pic.off :: r.parent in pic.at
    ensures Inv(Put(t, p), pic.(at := pic.at[p.id := {}]), now, window)
  {
    assert pic.at.Keys == t.byId.Keys;
    hide Pictured, Recorded, RecordsSound, Mirror, CronsSet;
    PutPictured(t, pic, p);
    PutRecorded(t, now, p);
    CreateRecords(t, pic, now, window, p);
    PutMirrors(t, p);
    PutCrons(t, p);
  }

  // Dropping future runs

  function UpTo(s: set<nat>, now: nat): set<nat> { set m | m in s && m <= now }

  /** The picture without a parent's future. */
  function Cut(pic: Picture, p: Uuid, now: nat): Picture
    requires p in pic.at
  {
    Picture(pic.at[p := UpTo(pic.at[p], now)], pic.off - set r | r in pic.off && r.parent == p && r.minute > now)
  }

  /** The rows of `schedules` that the records of a parent name are its future runs, no
      more and no fewer. */
  lemma FutureSlotsAre(t: Tables, pic: Picture, now: nat, window: nat, p: Uuid, k: SlotKey)
    requires Recorded(t, now) && RecordsSound(t, pic, now, window) && k in t.schedules
    ensures k in FutureSlots(t, p, now) <==> IsRun(t, k, p) && k.minute > now
  {
    if IsRun(t, k, p) && k.minute > now {
      assert RunKey(p, k.minute) in FutureKeys(t, p, now);
    }
  }

  /** The tables without a parent's future runs; its future records may go too. */
  ghost function Dropped(t: Tables, p: Uuid, now: nat, records: bool): Tables {
    t.(schedules := t.schedules - FutureSlots(t, p, now),
       runs := if records then t.runs - FutureKeys(t, p, now) else t.runs)
  }

  lemma DroppedRuns(t: Tables, pic: Picture, now: nat, window: nat, p: Uuid, records: bool)
    requires Recorded(t, now) && RecordsSound(t, pic, now, window)
    ensures forall k, q :: IsRun(Dropped(t, p, now, records), k, q) <==> IsRun(t, k, q) && !(q == p && k.minute > now)
  {
    forall k, q ensures IsRun(Dropped(t, p, now, records), k, q) <==> IsRun(t, k, q) && !(q == p && k.minute > now) {
      if k in t.schedules { FutureSlotsAre(t, pic, now, window, p, k); }
    }
  }

  lemma DropPictured(t: Tables, pic: Picture, now: nat, window: nat, p: Uuid, records: bool)
    requires Pictured(t, pic) && Recorded(t, now) && RecordsSound(t, pic, now, window) && p in pic.at
    ensures Pictured(Dropped(t, p, now, records), Cut(pic, p, now))
  {
    var t', pic' := Dropped(t, p, now, records), Cut(pic, p, now);
    DroppedRuns(t, pic, now, window, p, records);
    hide FutureSlots, FutureKeys, Recorded, RecordsSound;
    assert pic'.at.Keys == t'.byId.Keys;
    forall q, m | q in pic'.at && m in pic'.at[q] ensures HasRun(t', q, m) {
      assert HasRun(t, q, m);
      var k :| IsRun(t, k, q) && k.minute == m;
      assert IsRun(t', k, q);
    }
  }

  lemma DropRecorded(t: Tables, pic: Picture, now: nat, window: nat, p: Uuid, records: bool)
    requires Recorded(t, now) && RecordsSound(t, pic, now, window)
    ensures Recorded(Dropped(t, p, now, records), now)
  {
  }

  lemma DropRecords(t: Tables, pic: Picture, now: nat, window: nat, p: Uuid, records: bool)
    requires RecordsSound(t, pic, now, window) && p in pic.at && (records || !Live(t, p))
    ensures RecordsSound(Dropped(t, p, now, records), Cut(pic, p, now), now, window)
  {
  }

  /** Dropping a parent's future runs leaves the rest of the picture as it was; the records
      must go too if the parent is not deleted. */
  lemma DropKeeps(t: Tables, pic: Picture, now: nat, window: nat, p: Uuid, records: bool)
    requires Inv(t, pic, now, window) && p in pic.at && (records || !Live(t, p))
    ensures Inv(Dropped(t, p, now, records), Cut(pic, p, now), now, window)
  {
    hide Pictured, Recorded, RecordsSound, FutureSlots, FutureKeys, Live;
    DropPictured(t, pic, now, window, p, records);
    DropRecorded(t, pic, now, window, p, records);
    DropRecords(t, pic, now, window, p, records);
  }

  // One-time schedules and the cancelling of one run

  lemma OneTimePictured(t: Tables, pic: Picture, k: SlotKey, payload: string, callback: string)
    requires Pictured(t, pic) && k !in t.schedules
    ensures Pictured(AddOneTime(t, k, payload, callback), pic)
  {
    var t' := AddOneTime(t, k, payload, callback);
    assert forall l, q :: IsRun(t', l, q) <==> IsRun(t, l, q);
    assert forall q, m :: HasRun(t, q, m) ==> HasRun(t', q, m);
  }

  lemma OneTimeRecords(t: Tables, pic: Picture, now: nat, window: nat, k: SlotKey, payload: string, callback: string)
    requires Recorded(t, now) && RecordsSound(t, pic, now, window) && Unused(t, k.id)
    ensures Recorded(AddOneTime(t, k, payload, callback), now)
    ensures RecordsSound(AddOneTime(t, k, payload, callback), pic, now, window)
  {
  }

  lemma AddOneTimeKeeps(t: Tables, pic: Picture, now: nat, window: nat, k: SlotKey, payload: string, callback: string)
    requires Inv(t, pic, now, window) && Unused(t, k.id)
    ensures Inv(AddOneTime(t, k, payload, callback), pic, now, window)
  {
    hide Pictured, Recorded, RecordsSound;
    OneTimePictured(t, pic, k, payload, callback);
    OneTimeRecords(t, pic, now, window, k, payload, callback);
  }

  /** The picture without one schedule: a run of a parent is struck out. */
  ghost function Without(pic: Picture, t: Tables, k: SlotKey): Picture
    requires k in t.schedules
  {
    match t.schedules[k].parent
    case None => pic
    case Some(p) => if p in pic.at
      then Picture(pic.at[p := pic.at[p] - {k.minute}], pic.off + {RunKey(p, k.minute)}) else pic
  }

  lemma CancelPictured(t: Tables, pic: Picture, k: SlotKey)
    requires Pictured(t, pic) && IdsUnique(t) && k in t.schedules
    ensures Pictured(DeleteOneTime(t, k.id), Without(pic, t, k))
  {
    var t', pic' := DeleteOneTime(t, k.id), Without(pic, t, k);
    assert forall l, q :: IsRun(t', l, q) <==> IsRun(t, l, q) && l != k;
    assert pic'.at.Keys == t'.byId.Keys;
    forall q, m | q in pic'.at && m in pic'.at[q] ensures HasRun(t', q, m) {
      assert HasRun(t, q, m);
      var l :| IsRun(t, l, q) && l.minute == m;
      assert IsRun(t', l, q);
    }
  }

  /** The tables without one schedule. */
  lemma CancelledRows(t: Tables, k: SlotKey)
    requires IdsUnique(t) && k in t.schedules
    ensures var t' := DeleteOneTime(t, k.id);
      && t'.schedules == t.schedules - {k}
      && forall l, q :: IsRun(t', l, q) <==> IsRun(t, l, q) && l != k
  {
  }

  lemma CancelAccounted(t: Tables, pic: Picture, now: nat, k: SlotKey)
    requires Recorded(t, now) && Accounted(t, pic, now) && k in t.schedules
    ensures Accounted(DeleteOneTime(t, k.id), Without(pic, t, k), now)
  {
    var t' := DeleteOneTime(t, k.id);
    assert forall q :: Live(t', q) == Live(t, q);
    assert t.schedules[k].parent.Some? ==> IsRun(t, k, t.schedules[k].parent.value);
    hide Live;
  }

  lemma CancelRecords(t: Tables, pic: Picture, now: nat, window: nat, k: SlotKey)
    requires Recorded(t, now) && RecordsSound(t, pic, now, window) && IdsUnique(t) && k in t.schedules
    ensures Recorded(DeleteOneTime(t, k.id), now)
    ensures RecordsSound(DeleteOneTime(t, k.id), Without(pic, t, k), now, window)
  {
    CancelledRows(t, k);
    CancelAccounted(t, pic, now, k);
    assert PointHome(DeleteOneTime(t, k.id)) by { hide Recorded, Accounted, InBounds; }
    hide Accounted, PointHome, Without, IdsUnique;
  }

  lemma CancelKeeps(t: Tables, pic: Picture, now: nat, window: nat, k: SlotKey)
    requires Inv(t, pic, now, window) && k in t.schedules
    ensures Inv(DeleteOneTime(t, k.id), Without(pic, t, k), now, window)
  {
    hide Pictured, Recorded, RecordsSound;
    CancelPictured(t, pic, k);
    CancelRecords(t, pic, now, window, k);
  }
}
