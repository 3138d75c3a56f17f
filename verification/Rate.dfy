/** Reservation of provider calls under a per-minute limit. */
module Rate {
  import opened Options

  /** One request for a slot of a control key at clock time `now`. */
  datatype Request = Request(key: string, now: real, deadline: Option<real>)

  type Reservations = map<string, real>

  function Interval(limit: int): (r: real)
    requires limit > 0
    ensures r > 0.0 && r * limit as real == 60.0
  {
    60.0 / limit as real
  }

  function Earliest(reserved: Reservations, q: Request): (at: real)
    ensures at >= q.now && (q.key in reserved ==> at >= reserved[q.key])
    ensures q.now >= 0.0 && q.key !in reserved ==> at == q.now
  {
    var next := if q.key in reserved then reserved[q.key] else 0.0;
    if q.now >= next then q.now else next
  }

  predicate Granted(reserved: Reservations, q: Request) {
    q.deadline.Some? ==> Earliest(reserved, q) < q.deadline.value
  }

  function Reserved(reserved: Reservations, limit: int, q: Request): Reservations
    requires limit > 0
  {
    if Granted(reserved, q) then reserved[q.key := Earliest(reserved, q) + Interval(limit)] else reserved
  }

  /** The reservation table shared by all adapters of one process. */
  class Limiter {
    var reservations: Reservations

    constructor ()
      ensures reservations == map[]
    {
      reservations := map[];
    }

    /** `None` is the timeout raised when the slot would lie at or past the deadline. */
    method ReserveSlot(limit: Option<int>, q: Request) returns (raised: bool, slot: Option<real>)
      modifies this
      ensures limit.None? || limit.value <= 0 ==> !raised && slot.None? && reservations == old(reservations)
      ensures limit.Some? && limit.value > 0 ==>
                reservations == Reserved(old(reservations), limit.value, q) &&
                (raised <==> !Granted(old(reservations), q)) &&
                slot == if raised then None else Some(Earliest(old(reservations), q))
    {
      raised, slot := false, None;
      if limit.None? || limit.value <= 0 { return; }
      var next := if q.key in reservations then reservations[q.key] else 0.0;
      var at := if q.now >= next then q.now else next;
      if q.deadline.Some? && at >= q.deadline.value { return true, None; }
      reservations := reservations[q.key := at + 60.0 / limit.value as real];
      slot := Some(at);
    }
  }

  // ---- any arrival times, one limit per key ----

  function After(limit: int, requests: seq<Request>): Reservations
    requires limit > 0
  {
    if requests == [] then map[]
    else Reserved(After(limit, requests[..|requests| - 1]), limit, requests[|requests| - 1])
  }

  /** The slots granted to one key, in order of request. */
  function Slots(limit: int, requests: seq<Request>, key: string): seq<real>
    requires limit > 0
  {
    if requests == [] then []
    else
      var before := requests[..|requests| - 1];
      var q := requests[|requests| - 1];
      Slots(limit, before, key) +
      (if q.key == key && Granted(After(limit, before), q) then [Earliest(After(limit, before), q)] else [])
  }

  predicate Spaced(slots: seq<real>, gap: real) {
    forall i | 0 < i < |slots| :: slots[i - 1] + gap <= slots[i]
  }

  /** The table remembers, for each key, one interval past its last slot. */
  lemma {:induction false} SlotsAreSpaced(limit: int, requests: seq<Request>, key: string)
    requires limit > 0
    ensures Spaced(Slots(limit, requests, key), Interval(limit))
    ensures var slots := Slots(limit, requests, key);
            var table := After(limit, requests);
            if slots == [] then key !in table
            else key in table && table[key] == slots[|slots| - 1] + Interval(limit)
  {
    hide Interval, Granted, Earliest;
    if requests != [] {
      SlotsAreSpaced(limit, requests[..|requests| - 1], key);
    }
  }

  predicate InWindow(t: real, start: real) {
    start <= t < start + 60.0
  }

  /** How many slots fall into the minute that begins at `start`. */
  function InWindowCount(slots: seq<real>, start: real): nat {
    if slots == [] then 0
    else InWindowCount(slots[..|slots| - 1], start) + (if InWindow(slots[|slots| - 1], start) then 1 else 0)
  }

  /** `n` gaps on end. */
  function Gaps(n: nat, gap: real): real {
    if n == 0 then 0.0 else Gaps(n - 1, gap) + gap
  }

  lemma {:induction false} GapsMultiply(n: nat, gap: real)
    ensures Gaps(n, gap) == gap * n as real
  {
    if n > 0 {
      GapsMultiply(n - 1, gap);
      OneMore((n - 1) as real, gap);
      assert n as real == (n - 1) as real + 1.0;
    }
  }

  lemma OneMore(x: real, gap: real)
    ensures gap * x + gap == gap * (x + 1.0)
  {
  }

  /** `limit` gaps make a minute, and fewer stay inside it. */
  lemma {:induction false} GapsFillAMinute(n: nat, limit: nat)
    requires limit > 0
    ensures Gaps(limit, Interval(limit)) == 60.0
    ensures Gaps(n, Interval(limit)) < 60.0 <==> n < limit
    decreases if n < limit then limit - n else n - limit
  {
    GapsMultiply(limit, Interval(limit));
    if n < limit {
      GapsFillAMinute(n + 1, limit);
    } else if n > limit {
      GapsFillAMinute(n - 1, limit);
    }
  }

  /** `n` slots from `start` on reach at least `n - 1` gaps beyond it. */
  lemma {:induction false} CountedSlotsReach(slots: seq<real>, gap: real, start: real)
    requires Spaced(slots, gap) && gap > 0.0
    ensures InWindowCount(slots, start) > 0 ==>
              slots[|slots| - 1] >= start + Gaps(InWindowCount(slots, start) - 1, gap)
  {
    if slots != [] {
      var before := slots[..|slots| - 1];
      CountedSlotsReach(before, gap, start);
      if InWindowCount(before, start) > 0 {
        assert slots[|slots| - 2] + gap <= slots[|slots| - 1];
      }
    }
  }

  lemma {:induction false} SpacedSlotsFitTheLimit(slots: seq<real>, limit: int, start: real)
    requires limit > 0 && Spaced(slots, Interval(limit))
    ensures InWindowCount(slots, start) <= limit
  {
    if slots != [] {
      if InWindow(slots[|slots| - 1], start) {
        CountedSlotsReach(slots, Interval(limit), start);
        GapsFillAMinute(InWindowCount(slots, start) - 1, limit);
      } else {
        SpacedSlotsFitTheLimit(slots[..|slots| - 1], limit, start);
      }
    }
  }

  /** However the requests arrive, no half-open minute holds more than `limit` slots of one key. */
  lemma NoMinuteHoldsMore(limit: int, requests: seq<Request>, key: string, start: real)
    requires limit > 0
    ensures InWindowCount(Slots(limit, requests, key), start) <= limit
  {
    SlotsAreSpaced(limit, requests, key);
    SpacedSlotsFitTheLimit(Slots(limit, requests, key), limit, start);
  }

  /** A request that is refused leaves no trace: the later grants are those of the run without it. */
  lemma {:induction false} RefusalConsumesNothing(limit: int, before: seq<Request>, q: Request, after: seq<Request>)
    requires limit > 0 && !Granted(After(limit, before), q)
    ensures After(limit, before + [q] + after) == After(limit, before + after)
    ensures forall key :: Slots(limit, before + [q] + after, key) == Slots(limit, before + after, key)
  {
    hide Slots, After, Reserved, Granted, Earliest;
    if after == [] {
      OneMoreRequest(limit, before, q);
      assert before + [q] + after == before + [q] && before + after == before;
    } else {
      var most, last := after[..|after| - 1], after[|after| - 1];
      RefusalConsumesNothing(limit, before, q, most);
      OneMoreRequest(limit, before + [q] + most, last);
      OneMoreRequest(limit, before + most, last);
      assert before + [q] + after == before + [q] + most + [last];
      assert before + after == before + most + [last];
    }
  }

  lemma OneMoreRequest(limit: int, requests: seq<Request>, q: Request)
    requires limit > 0
    ensures After(limit, requests + [q]) == Reserved(After(limit, requests), limit, q)
    ensures !Granted(After(limit, requests), q) ==> Reserved(After(limit, requests), limit, q) == After(limit, requests)
    ensures forall key :: Slots(limit, requests + [q], key)
              == Slots(limit, requests, key)
                 + if q.key == key && Granted(After(limit, requests), q) then [Earliest(After(limit, requests), q)] else []
  {
    hide Granted, Earliest;
    assert (requests + [q])[..|requests|] == requests;
  }

  function Burst(key: string, n: nat): seq<Request> {
    seq(n, _ => Request(key, 0.0, None))
  }

  /** The limit is reached: `limit` requests at once fill the first minute, evenly spread. */
  lemma {:induction false} BurstIsSpread(limit: int, key: string, n: nat)
    requires limit > 0 && n <= limit
    ensures var slots := Slots(limit, Burst(key, n), key);
            |slots| == n && (forall i: nat | i < n :: slots[i] == Gaps(i, Interval(limit))) &&
            InWindowCount(slots, 0.0) == n
  {
    hide Slots, Interval, Burst, Gaps;
    if n > 0 {
      BurstIsSpread(limit, key, n - 1);
      GapsFillAMinute(n - 1, limit);
      GapsAreNotNegative(n - 1, Interval(limit));
      NextOfBurst(limit, key, n);
      var slots := Slots(limit, Burst(key, n), key);
      assert slots[..n - 1] == Slots(limit, Burst(key, n - 1), key);
    } else {
      NoBurst(limit, key);
    }
  }

  lemma NoBurst(limit: int, key: string)
    requires limit > 0
    ensures Slots(limit, Burst(key, 0), key) == []
  {
  }

  lemma NextOfBurst(limit: int, key: string, n: nat)
    requires limit > 0 && n > 0
    requires var slots := Slots(limit, Burst(key, n - 1), key);
             |slots| == n - 1 && (n > 1 ==> slots[n - 2] == Gaps(n - 2, Interval(limit)))
    ensures Slots(limit, Burst(key, n), key) == Slots(limit, Burst(key, n - 1), key) + [Gaps(n - 1, Interval(limit))]
  {
    assert Burst(key, n)[..n - 1] == Burst(key, n - 1);
    SlotsAreSpaced(limit, Burst(key, n - 1), key);
    GapsAreNotNegative(n - 1, Interval(limit));
  }

  lemma {:induction false} GapsAreNotNegative(n: nat, gap: real)
    requires gap > 0.0
    ensures Gaps(n, gap) >= 0.0
  {
    if n > 0 { GapsAreNotNegative(n - 1, gap); }
  }

  /**
   One more request: its slot is the later of now, zero and one interval past the key's last slot; it is
   granted exactly when that lies before the deadline, if there is one; other keys are not touched.
   */
  lemma NextSlotLiesBeforeTheDeadline(limit: int, requests: seq<Request>, q: Request)
    requires limit > 0
    ensures var slots := Slots(limit, requests, q.key);
            var free := if slots == [] then 0.0 else slots[|slots| - 1] + 60.0 / limit as real;
            var at := if q.now < free then free else q.now;
            Slots(limit, requests + [q], q.key)
            == if q.deadline == None || at < q.deadline.value then slots + [at] else slots
    ensures forall key | key != q.key :: Slots(limit, requests + [q], key) == Slots(limit, requests, key)
  {
    assert (requests + [q])[..|requests|] == requests;
    SlotsAreSpaced(limit, requests, q.key);
    var slots := Slots(limit, requests, q.key);
    assert slots + [] == slots;
    hide Slots, After;
  }
}
