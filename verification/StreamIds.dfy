/** Stream identifiers: each endpoint allocates its own parity, least free identifier first, and
    released identifiers are recycled. */
module StreamIds {
  import opened Bytes

  datatype Initiator = ClientSide | ServerSide

  function FirstId(initiator: Initiator): u64 {
    if initiator.ClientSide? then 1 else 2
  }

  /** The largest identifier of the initiator's parity that does not exceed maximum, or 0. */
  function LastId(initiator: Initiator, maximum: u64): (last: u64)
    ensures last <= maximum && (last == 0 || Own(initiator, last))
    ensures forall v: u64 :: Own(initiator, v) && v <= maximum ==> v <= last
  {
    if initiator.ClientSide? then
      if maximum % 2 == 1 then maximum else if maximum == 0 then 0 else maximum - 1
    else
      if maximum % 2 == 0 then maximum else maximum - 1
  }

  /** v is one of the identifiers this side may allocate. */
  predicate Own(initiator: Initiator, v: u64) {
    v > 0 && v % 2 == FirstId(initiator) % 2
  }

  datatype Allocator = Allocator(
    initiator: Initiator, next: u64, maximum: u64, inUse: set<u64>, available: set<u64>)

  function Fresh(initiator: Initiator, maximum: u64): Allocator {
    Allocator(initiator, FirstId(initiator), LastId(initiator, maximum), {}, {})
  }

  ghost predicate IsLeast(s: set<u64>, v: u64) {
    v in s && forall w :: w in s ==> v <= w
  }

  lemma {:induction false} LeastExists(s: set<u64>)
    requires s != {}
    ensures exists v: u64 :: IsLeast(s, v)
    decreases |s|
  {
    var v :| v in s;
    var others := s - {v};
    if others == {} {
      assert s == {v};
      assert IsLeast(s, v);
    } else {
      LeastExists(others);
      var w: u64 :| IsLeast(others, w);
      forall x | x in s
        ensures x == v || x in others
      {
      }
      assert IsLeast(s, if v < w then v else w);
    }
  }

  ghost function Least(s: set<u64>): (v: u64)
    requires s != {}
    ensures IsLeast(s, v)
  {
    LeastExists(s);
    var v: u64 :| IsLeast(s, v);
    v
  }

  ghost function Allocate(a: Allocator): (Allocator, Option<u64>) {
    if a.available != {} then
      var v := Least(a.available);
      (a.(available := a.available - {v}, inUse := a.inUse + {v}), Some(v))
    else if a.next == 0 || a.next > a.maximum then
      (a.(next := 0), None)
    else
      (a.(inUse := a.inUse + {a.next}, next := if a.maximum - a.next < 2 then 0 else a.next + 2), Some(a.next))
  }

  function Release(a: Allocator, v: u64): Allocator {
    if v == 0 || v > a.maximum || v % 2 != FirstId(a.initiator) % 2 then a
    else if v in a.inUse then a.(inUse := a.inUse - {v}, available := a.available + {v})
    else a
  }

  /** v has been handed out at least once. */
  predicate Issued(a: Allocator, v: u64) {
    Own(a.initiator, v) && v <= a.maximum && (a.next == 0 || v < a.next)
  }

  /** In-use and available identifiers partition those ever issued, and next is the first that was not. */
  ghost predicate Valid(a: Allocator) {
    && (a.maximum == 0 || Own(a.initiator, a.maximum))
    && a.inUse !! a.available
    && (forall v: u64 :: v in a.inUse + a.available <==> Issued(a, v))
    && (a.next != 0 ==> Own(a.initiator, a.next) && (a.next <= a.maximum || a.next == FirstId(a.initiator)))
  }

  lemma FreshValid(initiator: Initiator, maximum: u64)
    ensures Valid(Fresh(initiator, maximum))
  {
  }

  lemma AllocateValid(a: Allocator)
    requires Valid(a)
    ensures Valid(Allocate(a).0)
  {
    var a' := Allocate(a).0;
    forall v: u64
      ensures v in a'.inUse + a'.available <==> Issued(a', v)
    {
      assert v in a.inUse + a.available <==> Issued(a, v);
    }
  }

  /** Allocation returns the least identifier of its parity that is not in use, and fails exactly when
      every identifier of its parity up to the maximum is in use. Nothing wraps, whatever the
      64-bit maximum. */
  lemma AllocateIsLeastFree(a: Allocator)
    requires Valid(a)
    ensures var (a', r) := Allocate(a);
            && a'.inUse == (if r.Some? then a.inUse + {r.value} else a.inUse)
            && (r.Some? ==> Own(a.initiator, r.value) && r.value <= a.maximum && r.value !in a.inUse)
            && (r.Some? ==> forall w: u64 :: Own(a.initiator, w) && w < r.value ==> w in a.inUse)
            && (r.None? <==> forall w: u64 :: Own(a.initiator, w) && w <= a.maximum ==> w in a.inUse)
  {
    var r := Allocate(a).1;
    if a.available != {} {
      var v := Least(a.available);
      assert v in a.inUse + a.available;
    }
    forall w: u64 | Own(a.initiator, w) && w <= a.maximum && (r.Some? ==> w < r.value)
      ensures w in a.inUse
    {
      if a.available != {} {
        var v := Least(a.available);
        assert v in a.inUse + a.available;
      }
      assert w in a.inUse + a.available;
      assert w !in a.available;
    }
    if r.Some? {
      assert r.value in a.inUse + a.available <==> Issued(a, r.value);
    }
  }

  lemma ReleaseValid(a: Allocator, v: u64)
    requires Valid(a)
    ensures Valid(Release(a, v))
    ensures Release(a, v).inUse == a.inUse - {v}
  {
    var a' := Release(a, v);
    forall w: u64
      ensures w in a'.inUse + a'.available <==> Issued(a', w)
    {
      assert w in a.inUse + a.available <==> Issued(a, w);
    }
    assert v in a.inUse ==> v in a.inUse + a.available;
  }

  /** Identifiers are recycled: releasing what was just allocated makes it the next allocation. */
  lemma ReleasedIdIsReused(a: Allocator)
    requires Valid(a) && Allocate(a).1.Some?
    ensures var (a', r) := Allocate(a);
            Allocate(Release(a', r.value)).1 == r
  {
    var (a', r) := Allocate(a);
    AllocateValid(a);
    AllocateIsLeastFree(a);
    ReleaseValid(a', r.value);
    var back := Release(a', r.value);
    assert back.inUse == a.inUse;
    AllocateIsLeastFree(back);
    var again := Allocate(back).1;
    assert again.Some? by {
      assert Own(back.initiator, r.value) && r.value <= back.maximum && r.value !in back.inUse;
    }
  }

  class StreamIdAllocator {
    const initiator: Initiator
    const maximum: u64
    var next: u64
    var inUse: set<u64>
    var available: set<u64>

    ghost function View(): Allocator
      reads this
    {
      Allocator(initiator, next, maximum, inUse, available)
    }

    constructor (initiator: Initiator, maximum: u64)
      ensures View() == Fresh(initiator, maximum)
    {
      this.initiator := initiator;
      this.maximum := LastId(initiator, maximum);
      next := FirstId(initiator);
      inUse, available := {}, {};
    }

    method AllocateId() returns (stream: Option<u64>)
      modifies this
      ensures (View(), stream) == Allocate(old(View()))
    {
      if available != {} {
        LeastExists(available);
        var value :| value in available && forall w :: w in available ==> value <= w;
        assert IsLeast(available, value);
        available := available - {value};
        inUse := inUse + {value};
        return Some(value);
      }
      if next == 0 || next > maximum {
        next := 0;
        return None;
      }
      stream := Some(next);
      inUse := inUse + {next};
      if maximum - next < 2 {
        next := 0;
      } else {
        next := next + 2;
      }
    }

    method ReleaseId(value: u64)
      modifies this
      ensures View() == Release(old(View()), value)
    {
      if value == 0 || value > maximum || value % 2 != FirstId(initiator) % 2 {
        return;
      }
      if value in inUse {
        inUse := inUse - {value};
        available := available + {value};
      }
    }
  }
}
