/** Epoch-based reclamation: guards that publish an epoch in a slot, clients that unlink, stamp and
    retire, and one reclaimer at a time. One action per shared access; the slots are scanned one by one. */
module EpochProtocol {
  import opened Options
  import Runs

  /** A pointer waiting to be freed, with the epoch at which it was retired. */
  datatype Retired = Retired(obj: nat, epoch: nat)

  datatype Reader =
    | Away
    | Entering(e: nat)          // global epoch loaded, slot not yet stored
    | Inside

  datatype Object =
    | Linked
    | Unlinked                  // no longer reachable, epoch not yet loaded
    | Stamped(epoch: nat)       // about to be enqueued
    | Incoming(epoch: nat)
    | Pending(epoch: nat)
    | Freed

  datatype Reclaimer =
    | Off
    | Draining
    | Scanning(k: nat, min: nat)                // slots below k are scanned
    | Sweeping(safe: nat, i: nat, kept: nat)

  /** watchers[o] are the readers whose session began before o was unlinked and is still open;
      frees[o] counts how often o's deleter ran. */
  datatype State = State(
    epoch: nat, slots: seq<Option<nat>>, readers: seq<Reader>,
    objects: seq<Object>, watchers: seq<set<nat>>, frees: seq<nat>,
    incoming: seq<Retired>, pending: seq<Retired>, reclaimer: Reclaimer)

  datatype Action =
    | LoadEpoch(r: nat) | StoreSlot(r: nat) | Leave(r: nat)
    | Unlink(o: nat) | Stamp(o: nat) | Enqueue(o: nat)
    | Advance | BeginReclaim | Drain(j: nat) | EndDrain | ScanSlot | EndScan | Sweep | EndSweep

  predicate Enabled(s: State, a: Action)
  {
    match a
    case LoadEpoch(r) => r < |s.readers| && s.readers[r].Away?
    case StoreSlot(r) => r < |s.readers| && r < |s.slots| && s.readers[r].Entering?
    case Leave(r) => r < |s.readers| && r < |s.slots| && s.readers[r].Inside?
    case Unlink(o) => o < |s.objects| && o < |s.watchers| && s.objects[o].Linked?
    case Stamp(o) => o < |s.objects| && s.objects[o].Unlinked?
    case Enqueue(o) => o < |s.objects| && s.objects[o].Stamped?
    case Advance => true
    case BeginReclaim => s.reclaimer.Off?
    case Drain(j) => s.reclaimer.Draining? && j < |s.incoming| && s.incoming[j].obj < |s.objects|
    case EndDrain => s.reclaimer.Draining?
    case ScanSlot => s.reclaimer.Scanning? && s.reclaimer.k < |s.slots|
    case EndScan => s.reclaimer.Scanning? && s.reclaimer.k >= |s.slots|
    case Sweep =>
      && s.reclaimer.Sweeping? && s.reclaimer.i < |s.pending| && s.reclaimer.kept <= s.reclaimer.i
      && s.pending[s.reclaimer.i].obj < |s.objects| && s.pending[s.reclaimer.i].obj < |s.frees|
    case EndSweep => s.reclaimer.Sweeping? && s.reclaimer.i >= |s.pending| && s.reclaimer.kept <= |s.pending|
  }

  function Insiders(readers: seq<Reader>): set<nat>
  {
    set r | 0 <= r < |readers| && readers[r].Inside? :: r
  }

  function WithoutReader(watchers: seq<set<nat>>, r: nat): seq<set<nat>>
  {
    seq(|watchers|, o requires 0 <= o < |watchers| => watchers[o] - {r})
  }

  function Apply(s: State, a: Action): State
    requires Enabled(s, a)
  {
    match a
    case LoadEpoch(r) => s.(readers := s.readers[r := Entering(s.epoch)])
    case StoreSlot(r) => s.(slots := s.slots[r := Some(s.readers[r].e)], readers := s.readers[r := Inside])
    case Leave(r) =>
      s.(slots := s.slots[r := None], readers := s.readers[r := Away], watchers := WithoutReader(s.watchers, r))
    case Unlink(o) =>
      s.(objects := s.objects[o := Unlinked], watchers := s.watchers[o := Insiders(s.readers)])
    case Stamp(o) => s.(objects := s.objects[o := Stamped(s.epoch)])
    case Enqueue(o) =>
      s.(objects := s.objects[o := Incoming(s.objects[o].epoch)],
         incoming := s.incoming + [Retired(o, s.objects[o].epoch)])
    case Advance => s.(epoch := s.epoch + 1)
    case BeginReclaim => s.(reclaimer := Draining)
    case Drain(j) =>
      var item := s.incoming[j];
      s.(incoming := s.incoming[..j] + s.incoming[j + 1..], pending := s.pending + [item],
         objects := s.objects[item.obj := Pending(item.epoch)])
    case EndDrain => s.(reclaimer := Scanning(0, s.epoch))
    case ScanSlot =>
      var k, m := s.reclaimer.k, s.reclaimer.min;
      s.(reclaimer := Scanning(k + 1, if s.slots[k].Some? && s.slots[k].value < m then s.slots[k].value else m))
    case EndScan => s.(reclaimer := Sweeping(s.reclaimer.min, 0, 0))
    case Sweep => SweepOne(s, s.reclaimer.safe, s.reclaimer.i, s.reclaimer.kept)
    case EndSweep => s.(pending := s.pending[..s.reclaimer.kept], reclaimer := Off)
  }

  function SweepOne(s: State, safe: nat, i: nat, kept: nat): State
    requires kept <= i < |s.pending| && s.pending[i].obj < |s.objects| && s.pending[i].obj < |s.frees|
  {
    var item := s.pending[i];
    if item.epoch < safe then
      s.(objects := s.objects[item.obj := Freed], frees := s.frees[item.obj := s.frees[item.obj] + 1],
         reclaimer := Sweeping(safe, i + 1, kept))
    else
      s.(pending := s.pending[kept := item], reclaimer := Sweeping(safe, i + 1, kept + 1))
  }

  ghost predicate Next(s: State, a: Action, s': State)
  {
    Enabled(s, a) && s' == Apply(s, a)
  }

  ghost predicate Init(s: State)
  {
    && |s.slots| == |s.readers| && |s.watchers| == |s.frees| == |s.objects|
    && (forall r :: 0 <= r < |s.readers| ==> s.readers[r] == Away && s.slots[r] == None)
    && (forall o :: 0 <= o < |s.objects| ==> s.objects[o] == Linked && s.watchers[o] == {} && s.frees[o] == 0)
    && s.incoming == [] && s.pending == [] && s.reclaimer == Off
  }

  // ---------------------------------------------------------------- the invariant

  /** The entries the reclaimer still has to decide on or has decided to keep. */
  function Held(s: State): seq<Retired>
  {
    if s.reclaimer.Sweeping? && s.reclaimer.kept <= s.reclaimer.i <= |s.pending|
    then s.pending[..s.reclaimer.kept] + s.pending[s.reclaimer.i..]
    else s.pending
  }

  ghost predicate SlotsOk(epoch: nat, slots: seq<Option<nat>>, readers: seq<Reader>)
  {
    && |slots| == |readers|
    && forall r :: 0 <= r < |readers| ==>
         && (readers[r].Inside? <==> slots[r].Some?)
         && (slots[r].Some? ==> slots[r].value <= epoch)
         && (readers[r].Entering? ==> readers[r].e <= epoch)
  }

  /** Every watcher of an object published its epoch no later than the bound. */
  ghost predicate WatchersBelow(slots: seq<Option<nat>>, watchers: set<nat>, bound: nat)
  {
    forall r :: r in watchers ==> r < |slots| && slots[r].Some? && slots[r].value <= bound
  }

  ghost predicate ObjectOk(epoch: nat, slots: seq<Option<nat>>, x: Object, watchers: set<nat>, frees: nat)
  {
    && (x.Freed? ==> watchers == {} && frees == 1)
    && (!x.Freed? ==> frees == 0)
    && (x.Linked? ==> watchers == {})
    && WatchersBelow(slots, watchers, epoch)
    && (x.Stamped? || x.Incoming? || x.Pending? ==> x.epoch <= epoch && WatchersBelow(slots, watchers, x.epoch))
  }

  ghost predicate ObjectsOk(s: State)
  {
    && |s.watchers| == |s.frees| == |s.objects|
    && forall o :: 0 <= o < |s.objects| ==> ObjectOk(s.epoch, s.slots, s.objects[o], s.watchers[o], s.frees[o])
  }

  ghost predicate NoTwice(entries: seq<Retired>)
  {
    forall i, j :: 0 <= i < j < |entries| ==> entries[i].obj != entries[j].obj
  }

  /** The two lists hold exactly the objects retired and not freed, each once. */
  ghost predicate ListsOk(objects: seq<Object>, incoming: seq<Retired>, held: seq<Retired>)
  {
    && NoTwice(incoming) && NoTwice(held)
    && (forall i :: 0 <= i < |incoming| ==> incoming[i].obj < |objects| && objects[incoming[i].obj] == Incoming(incoming[i].epoch))
    && (forall i :: 0 <= i < |held| ==> held[i].obj < |objects| && objects[held[i].obj] == Pending(held[i].epoch))
    && (forall o :: 0 <= o < |objects| && objects[o].Incoming? ==> Retired(o, objects[o].epoch) in incoming)
    && (forall o :: 0 <= o < |objects| && objects[o].Pending? ==> Retired(o, objects[o].epoch) in held)
  }

  /** bound is no more than what any watcher (among the slots below k) of a held object published. */
  ghost predicate BoundOk(slots: seq<Option<nat>>, watchers: seq<set<nat>>, held: seq<Retired>, k: nat, bound: nat)
  {
    forall i, r :: 0 <= i < |held| && held[i].obj < |watchers| && r in watchers[held[i].obj] && r < k && r < |slots| && slots[r].Some?
      ==> bound <= slots[r].value
  }

  ghost predicate ReclaimerOk(s: State)
  {
    match s.reclaimer
    case Off => true
    case Draining => true
    case Scanning(k, m) => BoundOk(s.slots, s.watchers, s.pending, k, m)
    case Sweeping(safe, i, kept) =>
      kept <= i <= |s.pending| && BoundOk(s.slots, s.watchers, Held(s), |s.slots|, safe)
  }

  ghost predicate Inv(s: State)
  {
    && SlotsOk(s.epoch, s.slots, s.readers)
    && ObjectsOk(s)
    && ListsOk(s.objects, s.incoming, Held(s))
    && ReclaimerOk(s)
  }

  // ---------------------------------------------------------------- every action keeps it

  lemma LoadEpochKeepsInv(s: State, r: nat)
    requires Inv(s) && Enabled(s, LoadEpoch(r))
    ensures Inv(Apply(s, LoadEpoch(r)))
  {
  }

  /** A slot that no watcher owns may be stored; one that is emptied loses its reader as a watcher. */
  lemma ReaderKeepsObject(epoch: nat, slots: seq<Option<nat>>, r: nat, v: Option<nat>, x: Object, watchers: set<nat>,
                          frees: nat)
    requires ObjectOk(epoch, slots, x, watchers, frees) && r < |slots|
    requires v.None? || slots[r].None?
    ensures ObjectOk(epoch, slots[r := v], x, if v.None? then watchers - {r} else watchers, frees)
  {
  }

  lemma ReaderKeepsBound(slots: seq<Option<nat>>, watchers: seq<set<nat>>, held: seq<Retired>, k: nat, bound: nat,
                         r: nat, v: Option<nat>)
    requires BoundOk(slots, watchers, held, k, bound) && r < |slots|
    requires v.Some? ==> forall o :: 0 <= o < |watchers| ==> r !in watchers[o]
    ensures BoundOk(slots[r := v], watchers, held, k, bound)
    ensures BoundOk(slots[r := v], WithoutReader(watchers, r), held, k, bound)
  {
    var less := WithoutReader(watchers, r);
    forall i, q | 0 <= i < |held| && held[i].obj < |less| && q in less[held[i].obj] && q < k && q < |slots| && slots[r := v][q].Some?
      ensures bound <= slots[r := v][q].value
    {
      assert q in watchers[held[i].obj] && q != r;
    }
  }

  lemma StoreSlotKeepsInv(s: State, r: nat)
    requires Inv(s) && Enabled(s, StoreSlot(r))
    ensures Inv(Apply(s, StoreSlot(r)))
  {
    var v := Some(s.readers[r].e);
    forall o | 0 <= o < |s.objects|
      ensures r !in s.watchers[o]
      ensures ObjectOk(s.epoch, s.slots[r := v], s.objects[o], s.watchers[o], s.frees[o])
    {
      assert ObjectOk(s.epoch, s.slots, s.objects[o], s.watchers[o], s.frees[o]);
      ReaderKeepsObject(s.epoch, s.slots, r, v, s.objects[o], s.watchers[o], s.frees[o]);
    }
    ReclaimerKeeps(s, r, v);
  }

  lemma ReclaimerKeeps(s: State, r: nat, v: Option<nat>)
    requires ReclaimerOk(s) && r < |s.slots|
    requires v.Some? ==> forall o :: 0 <= o < |s.watchers| ==> r !in s.watchers[o]
    ensures ReclaimerOk(s.(slots := s.slots[r := v], watchers := if v.Some? then s.watchers else WithoutReader(s.watchers, r)))
  {
    match s.reclaimer
    case Scanning(k, m) => ReaderKeepsBound(s.slots, s.watchers, s.pending, k, m, r, v);
    case Sweeping(safe, i, kept) => ReaderKeepsBound(s.slots, s.watchers, Held(s), |s.slots|, safe, r, v);
    case _ =>
  }

  lemma LeaveKeepsInv(s: State, r: nat)
    requires Inv(s) && Enabled(s, Leave(r))
    ensures Inv(Apply(s, Leave(r)))
  {
    var s' := Apply(s, Leave(r));
    forall o | 0 <= o < |s.objects|
      ensures ObjectOk(s'.epoch, s'.slots, s'.objects[o], s'.watchers[o], s'.frees[o])
    {
      assert ObjectOk(s.epoch, s.slots, s.objects[o], s.watchers[o], s.frees[o]);
      ReaderKeepsObject(s.epoch, s.slots, r, None, s.objects[o], s.watchers[o], s.frees[o]);
    }
    ReclaimerKeeps(s, r, None);
    assert Held(s') == Held(s);
  }

  /** An unlink can only be watched by sessions whose slot is stored already. */
  lemma UnlinkKeepsInv(s: State, o: nat)
    requires Inv(s) && Enabled(s, Unlink(o))
    ensures Inv(Apply(s, Unlink(o)))
  {
    var s' := Apply(s, Unlink(o));
    assert WatchersBelow(s.slots, Insiders(s.readers), s.epoch);
    assert ObjectsOk(s');
    assert ListsOk(s'.objects, s.incoming, Held(s));
  }

  lemma StampKeepsLists(objects: seq<Object>, incoming: seq<Retired>, held: seq<Retired>, o: nat, e: nat)
    requires ListsOk(objects, incoming, held) && o < |objects| && objects[o].Unlinked?
    ensures ListsOk(objects[o := Stamped(e)], incoming, held)
  {
  }

  lemma StampKeepsInv(s: State, o: nat)
    requires Inv(s) && Enabled(s, Stamp(o))
    ensures Inv(Apply(s, Stamp(o)))
  {
    var s' := Apply(s, Stamp(o));
    StampKeepsLists(s.objects, s.incoming, Held(s), o, s.epoch);
    assert Held(s') == Held(s);
    forall p | 0 <= p < |s.objects|
      ensures ObjectOk(s'.epoch, s'.slots, s'.objects[p], s'.watchers[p], s'.frees[p])
    {
      assert ObjectOk(s.epoch, s.slots, s.objects[p], s.watchers[p], s.frees[p]);
    }
  }

  lemma EnqueueKeepsLists(objects: seq<Object>, incoming: seq<Retired>, held: seq<Retired>, o: nat)
    requires ListsOk(objects, incoming, held) && o < |objects| && objects[o].Stamped?
    ensures ListsOk(objects[o := Incoming(objects[o].epoch)], incoming + [Retired(o, objects[o].epoch)], held)
  {
    var item := Retired(o, objects[o].epoch);
    var objects', incoming' := objects[o := Incoming(item.epoch)], incoming + [item];
    forall p | 0 <= p < |objects'| && objects'[p].Incoming?
      ensures Retired(p, objects'[p].epoch) in incoming'
    {
      assert p == o || Retired(p, objects[p].epoch) in incoming;
    }
  }

  lemma EnqueueKeepsInv(s: State, o: nat)
    requires Inv(s) && Enabled(s, Enqueue(o))
    ensures Inv(Apply(s, Enqueue(o)))
  {
    var s' := Apply(s, Enqueue(o));
    EnqueueKeepsLists(s.objects, s.incoming, Held(s), o);
    forall p | 0 <= p < |s.objects|
      ensures ObjectOk(s'.epoch, s'.slots, s'.objects[p], s'.watchers[p], s'.frees[p])
    {
      assert ObjectOk(s.epoch, s.slots, s.objects[p], s.watchers[p], s.frees[p]);
    }
    assert Held(s') == Held(s);
  }

  lemma AdvanceKeepsInv(s: State)
    requires Inv(s)
    ensures Inv(Apply(s, Advance))
  {
  }

  lemma Shrinks(incoming: seq<Retired>, j: nat, x: Retired)
    requires j < |incoming| && NoTwice(incoming)
    ensures NoTwice(incoming[..j] + incoming[j + 1..])
    ensures x in incoming && x.obj != incoming[j].obj ==> x in incoming[..j] + incoming[j + 1..]
  {
  }

  lemma DrainShortensIncoming(objects: seq<Object>, incoming: seq<Retired>, held: seq<Retired>, j: nat)
    requires ListsOk(objects, incoming, held) && j < |incoming|
    ensures var item, incoming' := incoming[j], incoming[..j] + incoming[j + 1..];
      && item.obj < |objects| && NoTwice(incoming')
      && (forall i :: 0 <= i < |incoming'| ==>
            && incoming'[i].obj < |objects| && incoming'[i].obj != item.obj
            && objects[incoming'[i].obj] == Incoming(incoming'[i].epoch))
      && forall o :: 0 <= o < |objects| && objects[o].Incoming? && o != item.obj ==> Retired(o, objects[o].epoch) in incoming'
  {
    var item, incoming' := incoming[j], incoming[..j] + incoming[j + 1..];
    Shrinks(incoming, j, item);
    forall i | 0 <= i < |incoming'|
      ensures incoming'[i].obj < |objects| && incoming'[i].obj != item.obj
      ensures objects[incoming'[i].obj] == Incoming(incoming'[i].epoch)
    {
      var i0 := if i < j then i else i + 1;
      assert incoming'[i] == incoming[i0] && incoming[i0].obj != item.obj;
    }
    forall o | 0 <= o < |objects| && objects[o].Incoming? && o != item.obj
      ensures Retired(o, objects[o].epoch) in incoming'
    {
      Shrinks(incoming, j, Retired(o, objects[o].epoch));
    }
  }

  lemma DrainLengthensPending(objects: seq<Object>, incoming: seq<Retired>, held: seq<Retired>, item: Retired)
    requires ListsOk(objects, incoming, held) && item.obj < |objects| && objects[item.obj] == Incoming(item.epoch)
    ensures var objects', held' := objects[item.obj := Pending(item.epoch)], held + [item];
      && NoTwice(held')
      && (forall i :: 0 <= i < |held'| ==> held'[i].obj < |objects| && objects'[held'[i].obj] == Pending(held'[i].epoch))
      && forall o :: 0 <= o < |objects| && objects'[o].Pending? ==> Retired(o, objects'[o].epoch) in held'
  {
    var objects', held' := objects[item.obj := Pending(item.epoch)], held + [item];
    forall o | 0 <= o < |objects| && objects'[o].Pending?
      ensures Retired(o, objects'[o].epoch) in held'
    {
      assert o == item.obj || Retired(o, objects[o].epoch) in held;
    }
  }

  lemma DrainKeepsLists(s: State, j: nat)
    requires ListsOk(s.objects, s.incoming, s.pending) && Enabled(s, Drain(j))
    ensures var s' := Apply(s, Drain(j)); ListsOk(s'.objects, s'.incoming, s'.pending)
  {
    DrainShortensIncoming(s.objects, s.incoming, s.pending, j);
    DrainLengthensPending(s.objects, s.incoming, s.pending, s.incoming[j]);
  }

  lemma DrainKeepsInv(s: State, j: nat)
    requires Inv(s) && Enabled(s, Drain(j))
    ensures Inv(Apply(s, Drain(j)))
  {
    DrainKeepsLists(s, j);
    assert s.objects[s.incoming[j].obj] == Incoming(s.incoming[j].epoch);
  }

  /** Looking at one more slot: the bound is below that one too. */
  lemma ScanOneSlot(slots: seq<Option<nat>>, watchers: seq<set<nat>>, held: seq<Retired>, k: nat, m: nat)
    requires BoundOk(slots, watchers, held, k, m) && k < |slots|
    ensures BoundOk(slots, watchers, held, k + 1, if slots[k].Some? && slots[k].value < m then slots[k].value else m)
  {
  }

  lemma ScanKeepsReclaimer(s: State, a: Action)
    requires ReclaimerOk(s) && Enabled(s, a) && (a.BeginReclaim? || a.EndDrain? || a.ScanSlot? || a.EndScan?)
    ensures ReclaimerOk(Apply(s, a)) && Held(Apply(s, a)) == Held(s)
  {
    if a.ScanSlot? {
      ScanOneSlot(s.slots, s.watchers, s.pending, s.reclaimer.k, s.reclaimer.min);
    } else if a.EndScan? {
      assert s.pending[..0] + s.pending[0..] == s.pending;
    }
  }

  /** The scan: after the last slot, the bound is below everything a watcher has published. */
  lemma ScanKeepsInv(s: State, a: Action)
    requires Inv(s) && Enabled(s, a) && (a.BeginReclaim? || a.EndDrain? || a.ScanSlot? || a.EndScan?)
    ensures Inv(Apply(s, a))
  {
    ScanKeepsReclaimer(s, a);
  }

  lemma EndSweepKeepsInv(s: State)
    requires Inv(s) && Enabled(s, EndSweep)
    ensures Inv(Apply(s, EndSweep))
  {
    assert s.pending[..s.reclaimer.kept] + s.pending[s.reclaimer.i..] == s.pending[..s.reclaimer.kept];
  }

  lemma SafeIsBelowWatchers(slots: seq<Option<nat>>, watchers: seq<set<nat>>, held: seq<Retired>, safe: nat, i: nat)
    requires BoundOk(slots, watchers, held, |slots|, safe) && i < |held| && held[i].obj < |watchers|
    ensures forall r :: r in watchers[held[i].obj] && r < |slots| && slots[r].Some? ==> safe <= slots[r].value
  {
  }

  lemma NobodyIsLeft(slots: seq<Option<nat>>, watchers: set<nat>, epoch: nat, safe: nat)
    requires WatchersBelow(slots, watchers, epoch) && epoch < safe
    requires forall r :: r in watchers && r < |slots| && slots[r].Some? ==> safe <= slots[r].value
    ensures watchers == {}
  {
    forall r
      ensures r !in watchers
    {
    }
  }

  /** Freeing is safe: nobody who could still hold the pointer is left inside. */
  lemma SweepFreesUnwatched(s: State)
    requires Inv(s) && Enabled(s, Sweep) && s.pending[s.reclaimer.i].epoch < s.reclaimer.safe
    ensures s.watchers[s.pending[s.reclaimer.i].obj] == {}
  {
    var item := s.pending[s.reclaimer.i];
    assert Held(s)[s.reclaimer.kept] == item;
    assert ObjectOk(s.epoch, s.slots, s.objects[item.obj], s.watchers[item.obj], s.frees[item.obj]);
    SafeIsBelowWatchers(s.slots, s.watchers, Held(s), s.reclaimer.safe, s.reclaimer.kept);
    NobodyIsLeft(s.slots, s.watchers[item.obj], item.epoch, s.reclaimer.safe);
  }

  /** An entry leaves the reclaimer's list when its object is freed. */
  lemma FreedLeavesLists(objects: seq<Object>, incoming: seq<Retired>, held: seq<Retired>, k: nat)
    requires ListsOk(objects, incoming, held) && k < |held|
    ensures held[k].obj < |objects| && objects[held[k].obj] == Pending(held[k].epoch)
    ensures ListsOk(objects[held[k].obj := Freed], incoming, held[..k] + held[k + 1..])
  {
    var held' := held[..k] + held[k + 1..];
    var objects' := objects[held[k].obj := Freed];
    Shrinks(held, k, held[k]);
    forall i | 0 <= i < |held'|
      ensures held'[i].obj < |objects| && objects'[held'[i].obj] == Pending(held'[i].epoch)
    {
      var i0 := if i < k then i else i + 1;
      assert held'[i] == held[i0] && held[i0].obj != held[k].obj;
    }
    forall o | 0 <= o < |objects'| && objects'[o].Pending?
      ensures Retired(o, objects'[o].epoch) in held'
    {
      Shrinks(held, k, Retired(o, objects[o].epoch));
    }
  }

  lemma BoundStays(slots: seq<Option<nat>>, watchers: seq<set<nat>>, held: seq<Retired>, k: nat, n: nat, bound: nat)
    requires BoundOk(slots, watchers, held, n, bound) && k < |held|
    ensures BoundOk(slots, watchers, held[..k] + held[k + 1..], n, bound)
  {
    var held' := held[..k] + held[k + 1..];
    forall i, r | 0 <= i < |held'| && held'[i].obj < |watchers| && r in watchers[held'[i].obj] && r < n && r < |slots| && slots[r].Some?
      ensures bound <= slots[r].value
    {
      var i0 := if i < k then i else i + 1;
      assert held'[i] == held[i0];
    }
  }

  lemma SweepFreeingKeepsInv(s: State)
    requires Inv(s) && Enabled(s, Sweep) && s.pending[s.reclaimer.i].epoch < s.reclaimer.safe
    ensures Inv(Apply(s, Sweep))
  {
    var s', kept := Apply(s, Sweep), s.reclaimer.kept;
    SweepFreesUnwatched(s);
    assert Held(s)[kept] == s.pending[s.reclaimer.i];
    assert Held(s') == Held(s)[..kept] + Held(s)[kept + 1..];
    FreedLeavesLists(s.objects, s.incoming, Held(s), kept);
    BoundStays(s.slots, s.watchers, Held(s), kept, |s.slots|, s.reclaimer.safe);
  }

  lemma SweepKeepingKeepsInv(s: State)
    requires Inv(s) && Enabled(s, Sweep) && s.pending[s.reclaimer.i].epoch >= s.reclaimer.safe
    ensures Inv(Apply(s, Sweep))
  {
    assert Held(Apply(s, Sweep)) == Held(s);
  }

  lemma StepKeepsInv(s: State, a: Action)
    requires Inv(s) && Enabled(s, a)
    ensures Inv(Apply(s, a))
  {
    match a
    case LoadEpoch(r) => LoadEpochKeepsInv(s, r);
    case StoreSlot(r) => StoreSlotKeepsInv(s, r);
    case Leave(r) => LeaveKeepsInv(s, r);
    case Unlink(o) => UnlinkKeepsInv(s, o);
    case Stamp(o) => StampKeepsInv(s, o);
    case Enqueue(o) => EnqueueKeepsInv(s, o);
    case Advance => AdvanceKeepsInv(s);
    case Drain(j) => DrainKeepsInv(s, j);
    case EndSweep => EndSweepKeepsInv(s);
    case Sweep =>
      if s.pending[s.reclaimer.i].epoch < s.reclaimer.safe { SweepFreeingKeepsInv(s); } else { SweepKeepingKeepsInv(s); }
    case _ => ScanKeepsInv(s, a);
  }

  lemma ReachableHoldsInv(s: State)
    requires Runs.Reachable(Init, Next, s)
    ensures Inv(s)
  {
    forall r: State, a, r' | Inv(r) && Next(r, a, r')
      ensures Inv(r')
    {
      StepKeepsInv(r, a);
    }
    Runs.ReachableKeepsInvariant(Init, Next, Inv, s);
  }

  /** Something retired at this epoch has to wait: no epoch has begun since, or a guard is that old. */
  predicate MustWait(epoch: nat, globalEpoch: nat, slots: seq<Option<nat>>)
  {
    epoch >= globalEpoch || exists r :: 0 <= r < |slots| && slots[r].Some? && slots[r].value <= epoch
  }

  // ---------------------------------------------------------------- reclamation is safe

  /** No object is freed while a session that began before its unlink is still open, and none twice. */
  lemma NothingFreedUnderGuard(s: State, o: nat)
    requires Runs.Reachable(Init, Next, s) && o < |s.objects|
    ensures o < |s.watchers| && o < |s.frees|
    ensures s.frees[o] == if s.objects[o].Freed? then 1 else 0
    ensures s.objects[o].Freed? ==> s.watchers[o] == {}
  {
    ReachableHoldsInv(s);
    assert ObjectOk(s.epoch, s.slots, s.objects[o], s.watchers[o], s.frees[o]);
  }

  /** The watchers of an object are exactly the sessions open at its unlink and not closed since. */
  lemma WatchersAreOpenSessions(s: State, a: Action, o: nat)
    requires Inv(s) && Enabled(s, a) && o < |s.objects|
    ensures var s' := Apply(s, a);
      o < |s'.watchers| &&
      s'.watchers[o] ==
        if a == Unlink(o) then Insiders(s.readers)
        else if a.Leave? then s.watchers[o] - {a.r}
        else s.watchers[o]
  {
  }

  /** Until it is freed, a retired object is on exactly one list, once, under the epoch it was stamped with. */
  lemma RetiredIsNeverLost(s: State, o: nat)
    requires Runs.Reachable(Init, Next, s) && o < |s.objects|
    ensures s.objects[o].Incoming? <==> exists i :: 0 <= i < |s.incoming| && s.incoming[i].obj == o
    ensures s.objects[o].Pending? <==> exists i :: 0 <= i < |Held(s)| && Held(s)[i].obj == o
    ensures NoTwice(s.incoming) && NoTwice(Held(s))
    ensures forall i :: 0 <= i < |s.incoming| && s.incoming[i].obj == o ==> s.objects[o] == Incoming(s.incoming[i].epoch)
    ensures forall i :: 0 <= i < |Held(s)| && Held(s)[i].obj == o ==> s.objects[o] == Pending(Held(s)[i].epoch)
  {
    ReachableHoldsInv(s);
    if s.objects[o].Incoming? { assert Retired(o, s.objects[o].epoch) in s.incoming; }
    if s.objects[o].Pending? { assert Retired(o, s.objects[o].epoch) in Held(s); }
  }
}
