/** The epoch manager's own code, as one thread runs it: the scan for the oldest epoch and the
    reclaimer's in-place compaction of its list. */
module EpochManagers {
  import opened Options
  import opened EpochProtocol

  /** The entries that must wait: retired no earlier than the oldest epoch in use. */
  function Kept(entries: seq<Retired>, safe: nat): seq<Retired>
  {
    if entries == [] then []
    else Kept(entries[..|entries| - 1], safe) +
         if entries[|entries| - 1].epoch < safe then [] else [entries[|entries| - 1]]
  }

  /** The entries that may go, in the order they are freed. */
  function Expired(entries: seq<Retired>, safe: nat): seq<Retired>
  {
    if entries == [] then []
    else Expired(entries[..|entries| - 1], safe) +
         if entries[|entries| - 1].epoch < safe then [entries[|entries| - 1]] else []
  }

  /** Each entry ends up on the right side of the line. */
  lemma {:induction false} SidesAreRight(entries: seq<Retired>, safe: nat)
    ensures forall x :: x in Kept(entries, safe) ==> x.epoch >= safe
    ensures forall x :: x in Expired(entries, safe) ==> x.epoch < safe
  {
    if entries != [] {
      SidesAreRight(entries[..|entries| - 1], safe);
    }
  }

  /** Nothing is lost and nothing is duplicated. */
  lemma {:induction false} KeptAndExpiredSplit(entries: seq<Retired>, safe: nat)
    ensures multiset(Kept(entries, safe)) + multiset(Expired(entries, safe)) == multiset(entries)
  {
    if entries != [] {
      var n := |entries| - 1;
      var k, x := Kept(entries[..n], safe), Expired(entries[..n], safe);
      KeptAndExpiredSplit(entries[..n], safe);
      assert entries == entries[..n] + [entries[n]];
      if entries[n].epoch < safe {
        assert Kept(entries, safe) == k && Expired(entries, safe) == x + [entries[n]];
      } else {
        assert Kept(entries, safe) == k + [entries[n]] && Expired(entries, safe) == x;
      }
    }
  }

  lemma KeptMustWait(entries: seq<Retired>, safe: nat, globalEpoch: nat, slots: seq<Option<nat>>)
    requires safe == globalEpoch || Some(safe) in slots
    ensures forall x :: x in Kept(entries, safe) ==> MustWait(x.epoch, globalEpoch, slots)
  {
    SidesAreRight(entries, safe);
    if safe != globalEpoch {
      var r :| 0 <= r < |slots| && slots[r] == Some(safe);
    }
  }

  lemma ExpiredMayGo(entries: seq<Retired>, safe: nat, globalEpoch: nat, slots: seq<Option<nat>>)
    requires safe <= globalEpoch && forall r :: 0 <= r < |slots| && slots[r].Some? ==> safe <= slots[r].value
    ensures forall x :: x in Expired(entries, safe) ==> !MustWait(x.epoch, globalEpoch, slots)
  {
    SidesAreRight(entries, safe);
  }

  class EpochManager {
    var globalEpoch: nat
    const participants: array<Option<nat>>
    var incoming: seq<Retired>
    var pending: seq<Retired>
    var reclaiming: bool
    var retiredCount: int

    constructor (slots: nat)
      ensures globalEpoch == 0 && incoming == [] && pending == [] && !reclaiming && retiredCount == 0
      ensures fresh(participants) && participants.Length == slots
      ensures forall r :: 0 <= r < slots ==> participants[r] == None
    {
      globalEpoch, incoming, pending, reclaiming, retiredCount := 0, [], [], false, 0;
      participants := new Option<nat>[slots](_ => None);
    }

    method Enter(r: nat)
      requires r < participants.Length
      modifies participants
      ensures participants[r] == Some(globalEpoch)
      ensures forall q :: 0 <= q < participants.Length && q != r ==> participants[q] == old(participants[q])
    {
      participants[r] := Some(globalEpoch);
    }

    method Leave(r: nat)
      requires r < participants.Length
      modifies participants
      ensures participants[r] == None
      ensures forall q :: 0 <= q < participants.Length && q != r ==> participants[q] == old(participants[q])
    {
      participants[r] := None;
    }

    method RetirePtr(obj: nat, epoch: nat)
      modifies this`incoming, this`retiredCount
      ensures incoming == old(incoming) + [Retired(obj, epoch)] && retiredCount == old(retiredCount) + 1
    {
      incoming := incoming + [Retired(obj, epoch)];
      retiredCount := retiredCount + 1;
    }

    /** The smallest of the global epoch and the published ones. */
    method MinActiveEpoch() returns (min: nat)
      ensures min <= globalEpoch
      ensures forall r :: 0 <= r < participants.Length && participants[r].Some? ==> min <= participants[r].value
      ensures min == globalEpoch || Some(min) in participants[..]
    {
      min := globalEpoch;
      var i := 0;
      while i < participants.Length
        invariant i <= participants.Length && min <= globalEpoch
        invariant forall r :: 0 <= r < i && participants[r].Some? ==> min <= participants[r].value
        invariant min == globalEpoch || Some(min) in participants[..]
      {
        if participants[i].Some? && participants[i].value < min {
          min := participants[i].value;
          assert participants[..][i] == Some(min);
        }
        i := i + 1;
      }
    }

    /** Frees what is older than safe and moves the rest to the front, in place and in order. */
    method Sweep(safe: nat) returns (freed: seq<Retired>)
      modifies this`pending
      ensures pending == Kept(old(pending), safe)
      ensures freed == Expired(old(pending), safe)
    {
      var kept, i := 0, 0;
      freed := [];
      var was := pending;
      while i < |pending|
        invariant kept <= i <= |pending| == |was|
        invariant pending[..kept] == Kept(was[..i], safe) && freed == Expired(was[..i], safe)
        invariant pending[i..] == was[i..]
      {
        assert was[..i + 1][..i] == was[..i] && pending[i] == was[i];
        if pending[i].epoch < safe {
          freed := freed + [pending[i]];
        } else {
          pending := pending[kept := pending[i]];
          kept := kept + 1;
        }
        i := i + 1;
      }
      assert was[..i] == was;
      pending := pending[..kept];
    }

    /** Moves what has been retired into the reclaimer's own list. */
    method DrainIncoming()
      modifies this`pending, this`incoming
      ensures incoming == [] && pending == old(pending) + old(incoming)
    {
      while |incoming| > 0
        invariant pending + incoming == old(pending) + old(incoming)
      {
        pending := pending + [incoming[0]];
        incoming := incoming[1..];
      }
      assert pending == pending + incoming;
    }

    method FreeOld() returns (freed: seq<Retired>)
      modifies this`pending
      ensures multiset(pending) + multiset(freed) == multiset(old(pending))
      ensures forall x :: x in freed ==> !MustWait(x.epoch, globalEpoch, participants[..])
      ensures forall x :: x in pending ==> MustWait(x.epoch, globalEpoch, participants[..])
    {
      var safeEpoch := MinActiveEpoch();
      KeptAndExpiredSplit(pending, safeEpoch);
      KeptMustWait(pending, safeEpoch, globalEpoch, participants[..]);
      ExpiredMayGo(pending, safeEpoch, globalEpoch, participants[..]);
      freed := Sweep(safeEpoch);
    }

    /** One reclaimer at a time: drain, find the oldest epoch, sweep. What has to wait is kept, and everything
        else freed. */
    method TryReclaim() returns (freed: seq<Retired>)
      modifies this
      ensures old(reclaiming) ==> freed == [] && pending == old(pending) && incoming == old(incoming) && reclaiming
      ensures !old(reclaiming) ==> incoming == [] && !reclaiming
      ensures multiset(pending) + multiset(freed) + multiset(incoming) == multiset(old(pending)) + multiset(old(incoming))
      ensures forall x :: x in freed ==> !MustWait(x.epoch, globalEpoch, participants[..])
      ensures !old(reclaiming) ==> forall x :: x in pending ==> MustWait(x.epoch, globalEpoch, participants[..])
      ensures retiredCount == old(retiredCount) - |freed|
      ensures globalEpoch == old(globalEpoch)
    {
      if reclaiming {
        return [];
      }
      reclaiming := true;
      DrainIncoming();
      freed := FreeOld();
      if |freed| > 0 {
        retiredCount := retiredCount - |freed|;
      }
      reclaiming := false;
    }
  }
}
