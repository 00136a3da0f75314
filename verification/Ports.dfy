/** Gateway ports of one host: callers that read the table, take a port, save their row and let the port go,
    all interleaved. A read takes its snapshot somewhere between its begin and its end. */
module Ports {
  import opened Options

  type Port = nat
  type Caller = nat
  type RowId = nat

  /** A row that is not destroyed; the unique index leaves out those in error. */
  datatype PortRow = PortRow(port: Port, errored: bool)
  /** `before` has what was held at the start of the read. The last two are history: the ports others took since
      then, and those of them whose holder also saved its row and let go again, with the row. */
  datatype Reading = Reading(
    before: set<Port>, snapshot: Option<set<Port>>, taken: set<Port>, passed: set<(Port, RowId)>)
  /** `row` is the row the holder has saved, if it has. */
  datatype Holding = Holding(port: Port, row: Option<RowId>)

  datatype State = State(
    first: Port,
    last: Port,
    pending: set<Port>,
    rows: map<RowId, PortRow>,
    reading: map<Caller, Reading>,
    holding: map<Caller, Holding>)

  function Initial(first: Port, last: Port): State {
    State(first, last, {}, map[], map[], map[])
  }

  function UsedPorts(s: State): set<Port> {
    set row | row in s.rows :: s.rows[row].port
  }

  // ----- The scan -----

  predicate Free(p: Port, used: set<Port>, pending: set<Port>, before: set<Port>) {
    p !in used && p !in pending && p !in before
  }

  /** The lowest free port of the range. */
  function Scan(port: Port, last: Port, used: set<Port>, pending: set<Port>, before: set<Port>): (r: Option<Port>)
    ensures r.Some? ==> port <= r.value <= last && Free(r.value, used, pending, before)
    ensures r.Some? ==> forall q :: port <= q < r.value ==> !Free(q, used, pending, before)
    ensures r.None? ==> forall q :: port <= q <= last ==> !Free(q, used, pending, before)
    decreases last + 1 - port
  {
    if port > last then None
    else if Free(port, used, pending, before) then Some(port)
    else Scan(port + 1, last, used, pending, before)
  }

  // ----- The steps -----

  datatype Event =
    | Begin(caller: Caller)
    | Snapshot(caller: Caller)
    | Finish(caller: Caller)
    | FailRead(caller: Caller)
    | Save(caller: Caller, row: RowId)
    | SaveInError(caller: Caller, row: RowId)
    | Release(caller: Caller)
    | MarkError(row: RowId)
    | LeaveError(row: RowId)
    | Destroy(row: RowId)

  predicate Clashes(s: State, row: RowId, port: Port) {
    exists other :: other in s.rows && other != row && s.rows[other].port == port && !s.rows[other].errored
  }

  function Taken(r: Reading, port: Port): Reading {
    r.(taken := r.taken + {port})
  }

  function Passed(r: Reading, h: Holding): Reading {
    if h.row.Some? && h.port in r.taken then r.(passed := r.passed + {(h.port, h.row.value)}) else r
  }

  function Chosen(s: State, caller: Caller): Option<Port>
    requires caller in s.reading && s.reading[caller].snapshot.Some?
  {
    var r := s.reading[caller];
    Scan(s.first, s.last, r.snapshot.value, s.pending, r.before)
  }

  function Finishes(s: State, caller: Caller): State
    requires caller in s.reading && s.reading[caller].snapshot.Some?
  {
    var chosen := Chosen(s, caller);
    var others := s.reading - {caller};
    if chosen.None? then s.(reading := others)
    else
      s.(pending := s.pending + {chosen.value},
         reading := map c | c in others :: Taken(others[c], chosen.value),
         holding := s.holding[caller := Holding(chosen.value, None)])
  }

  function Releases(s: State, caller: Caller): State
    requires caller in s.holding
  {
    var h := s.holding[caller];
    s.(pending := s.pending - {h.port},
       reading := map c | c in s.reading :: Passed(s.reading[c], h),
       holding := s.holding - {caller})
  }

  function Saves(s: State, c: Caller, row: RowId, errored: bool): State
    requires c in s.holding
  {
    var port := s.holding[c].port;
    s.(rows := s.rows[row := PortRow(port, errored)], holding := s.holding[c := Holding(port, Some(row))])
  }

  predicate MaySave(s: State, c: Caller, row: RowId) {
    c in s.holding && s.holding[c].row.None? && row !in s.rows
  }

  /** A save the index refuses changes nothing: its caller lets the port go and tries another. A row that is
      rolled back arrives in error, where the index does not look. */
  function Step(s: State, e: Event): State {
    match e
    case Begin(c) =>
      if c in s.reading || c in s.holding then s
      else s.(reading := s.reading[c := Reading(s.pending, None, {}, {})])
    case Snapshot(c) =>
      if c !in s.reading || s.reading[c].snapshot.Some? then s
      else s.(reading := s.reading[c := s.reading[c].(snapshot := Some(UsedPorts(s)))])
    case Finish(c) => if c in s.reading && s.reading[c].snapshot.Some? then Finishes(s, c) else s
    case FailRead(c) => s.(reading := s.reading - {c})
    case Save(c, row) => if MaySave(s, c, row) &&
      !Clashes(s, row, s.holding[c].port) then Saves(s, c, row, false) else s
    case SaveInError(c, row) => if MaySave(s, c, row) then Saves(s, c, row, true) else s
    case Release(c) => if c in s.holding then Releases(s, c) else s
    case MarkError(row) => if row in s.rows then s.(rows := s.rows[row := s.rows[row].(errored := true)]) else s
    case LeaveError(row) =>
      if row !in s.rows || Clashes(s, row, s.rows[row].port) then s
      else s.(rows := s.rows[row := s.rows[row].(errored := false)])
    case Destroy(row) => s.(rows := s.rows - {row})
  }

  function Run(first: Port, last: Port, events: seq<Event>): State {
    if events == [] then Initial(first, last) else Step(Run(first, last, events[..|events| - 1]), events[|events| - 1])
  }

  // ----- What every run keeps -----

  /** The pending set is what the callers hold, each port by one of them. */
  ghost predicate HeldOnce(s: State) {
    && (forall c :: c in s.holding ==> s.holding[c].port in s.pending)
    && (forall c, d :: c in s.holding && d in s.holding && c != d ==> s.holding[c].port != s.holding[d].port)
    && s.holding.Keys !! s.reading.Keys
  }

  predicate SavedNow(s: State, port: Port, row: RowId) {
    exists c :: c in s.holding && s.holding[c] == Holding(port, Some(row))
  }

  ghost predicate ReadingKnows(s: State, r: Reading) {
    && (forall c :: c in s.holding ==> s.holding[c].port in r.before || s.holding[c].port in r.taken)
    && (r.snapshot.Some? ==> forall row :: row in s.rows ==> Known(s, r, s.rows[row].port, row))
  }

  predicate Known(s: State, r: Reading, port: Port, row: RowId)
    requires r.snapshot.Some?
  {
    port in r.snapshot.value || port in r.before || (port, row) in r.passed || SavedNow(s, port, row)
  }

  /** The unique index: no two rows out of error share a port. */
  ghost predicate Indexed(s: State) {
    forall a, b :: a in s.rows && b in s.rows && a != b && !s.rows[a].errored && !s.rows[b].errored ==>
        s.rows[a].port != s.rows[b].port
  }

  ghost predicate Inv(s: State) {
    HeldOnce(s) && Indexed(s) && forall c :: c in s.reading ==> ReadingKnows(s, s.reading[c])
  }

  lemma BeginKeeps(s: State, c: Caller)
    requires Inv(s)
    ensures Inv(Step(s, Begin(c)))
  {
    var s' := Step(s, Begin(c));
    forall d | d in s'.reading
      ensures ReadingKnows(s', s'.reading[d])
    {
      SameHolding(s, s');
      assert d in s.reading ==> ReadingKnows(s, s.reading[d]);
    }
  }

  lemma SameHolding(s: State, s': State)
    requires s.holding == s'.holding
    ensures forall p, row :: SavedNow(s', p, row) <==> SavedNow(s, p, row)
  {}

  lemma SnapshotKeeps(s: State, c: Caller)
    requires Inv(s)
    ensures Inv(Step(s, Snapshot(c)))
  {
    var s' := Step(s, Snapshot(c));
    SameHolding(s, s');
    forall d | d in s'.reading
      ensures ReadingKnows(s', s'.reading[d])
    {
      assert ReadingKnows(s, s.reading[d]);
    }
  }

  lemma FinishKeeps(s: State, c: Caller)
    requires Inv(s) && c in s.reading && s.reading[c].snapshot.Some?
    ensures Inv(Finishes(s, c))
  {
    var s' := Finishes(s, c);
    assert forall p, row :: SavedNow(s', p, row) <==> SavedNow(s, p, row) by {
      NewHolderSavedNothing(s, s', c);
    }
    forall d | d in s'.reading
      ensures ReadingKnows(s', s'.reading[d])
    {
      assert ReadingKnows(s, s.reading[d]);
    }
  }

  lemma NewHolderSavedNothing(s: State, s': State, c: Caller)
    requires c !in s.holding
    requires s'.holding == s.holding || exists p :: s'.holding == s.holding[c := Holding(p, None)]
    ensures forall p, row :: SavedNow(s', p, row) <==> SavedNow(s, p, row)
  {
    forall p, row | SavedNow(s, p, row)
      ensures SavedNow(s', p, row)
    {
      var d :| d in s.holding && s.holding[d] == Holding(p, Some(row));
      assert d in s'.holding && s'.holding[d] == s.holding[d];
    }
  }

  lemma SavesKeeps(s: State, c: Caller, row: RowId, errored: bool)
    requires Inv(s) && MaySave(s, c, row) && (errored || !Clashes(s, row, s.holding[c].port))
    ensures Inv(Saves(s, c, row, errored))
  {
    var s', port := Saves(s, c, row, errored), s.holding[c].port;
    assert s'.holding[c] == Holding(port, Some(row));
    forall p, r | SavedNow(s, p, r)
      ensures SavedNow(s', p, r)
    {
      var d :| d in s.holding && s.holding[d] == Holding(p, Some(r));
      assert d != c && s'.holding[d] == s.holding[d];
    }
    forall d | d in s'.reading
      ensures ReadingKnows(s', s'.reading[d])
    {
      assert ReadingKnows(s, s.reading[d]);
    }
  }

  lemma ReleaseKeeps(s: State, c: Caller)
    requires Inv(s) && c in s.holding
    ensures Inv(Releases(s, c))
  {
    var s' := Releases(s, c);
    var h := s.holding[c];
    forall d | d in s'.reading
      ensures ReadingKnows(s', s'.reading[d])
    {
      assert ReadingKnows(s, s.reading[d]);
      forall p, row | SavedNow(s, p, row)
        ensures SavedNow(s', p, row) || h == Holding(p, Some(row))
      {
        var e :| e in s.holding && s.holding[e] == Holding(p, Some(row));
        assert e != c ==> s'.holding[e] == s.holding[e];
      }
    }
  }

  lemma RowsKeep(s: State, rows: map<RowId, PortRow>)
    requires Inv(s) && Indexed(s.(rows := rows))
    requires forall row :: row in rows ==> row in s.rows && rows[row].port == s.rows[row].port
    ensures Inv(s.(rows := rows))
  {
    var s' := s.(rows := rows);
    SameHolding(s, s');
    forall d | d in s'.reading
      ensures ReadingKnows(s', s'.reading[d])
    {
      assert ReadingKnows(s, s.reading[d]);
    }
  }

  lemma StepKeeps(s: State, e: Event)
    requires Inv(s)
    ensures Inv(Step(s, e))
  {
    match e
    case Begin(c) => BeginKeeps(s, c);
    case Snapshot(c) => SnapshotKeeps(s, c);
    case Finish(c) => if c in s.reading && s.reading[c].snapshot.Some? { FinishKeeps(s, c); }
    case FailRead(c) => FailReadKeeps(s, c);
    case Save(c, row) => if MaySave(s, c, row) && !Clashes(s, row, s.holding[c].port) { SavesKeeps(s, c, row, false); }
    case SaveInError(c, row) => if MaySave(s, c, row) { SavesKeeps(s, c, row, true); }
    case Release(c) => if c in s.holding { ReleaseKeeps(s, c); }
    case MarkError(row) => RowsKeep(s, Step(s, e).rows);
    case LeaveError(row) => RowsKeep(s, Step(s, e).rows);
    case Destroy(row) => RowsKeep(s, Step(s, e).rows);
  }

  lemma FailReadKeeps(s: State, c: Caller)
    requires Inv(s)
    ensures Inv(Step(s, FailRead(c)))
  {
    var s' := Step(s, FailRead(c));
    SameHolding(s, s');
    forall d | d in s'.reading
      ensures ReadingKnows(s', s'.reading[d])
    {
      assert ReadingKnows(s, s.reading[d]);
    }
  }

  lemma {:induction false} RunKeeps(first: Port, last: Port, events: seq<Event>)
    ensures Inv(Run(first, last, events))
  {
    if events != [] {
      RunKeeps(first, last, events[..|events| - 1]);
      StepKeeps(Run(first, last, events[..|events| - 1]), events[|events| - 1]);
    }
  }

  // ----- What a caller gets -----

  /** A row that took its port, was saved and let go of all within this one read, and still has it. */
  ghost predicate PassedRow(s: State, r: Reading, port: Port) {
    exists row :: (port, row) in r.passed && row in s.rows && s.rows[row].port == port
  }

  /** The port handed out is held by nobody else, and a row has it if and only if that row passed wholly
      within this read. */
  lemma AllocatedPortIsOurs(first: Port, last: Port, events: seq<Event>, c: Caller)
    requires var s := Run(first, last, events);
             c in s.reading && s.reading[c].snapshot.Some? && Chosen(s, c).Some?
    ensures var s := Run(first, last, events);
            var port := Chosen(s, c).value;
            && (forall d :: d in s.holding ==> s.holding[d].port != port)
            && (port in UsedPorts(s) <==> PassedRow(s, s.reading[c], port))
  {
    RunKeeps(first, last, events);
    var s := Run(first, last, events);
    var port := Chosen(s, c).value;
    assert ReadingKnows(s, s.reading[c]);
    if port in UsedPorts(s) {
      var row :| row in s.rows && s.rows[row].port == port;
      assert Known(s, s.reading[c], port, row);
    }
  }

  /** No row passed: the port is free of rows too. */
  lemma AllocatedPortIsExclusive(first: Port, last: Port, events: seq<Event>, c: Caller)
    requires var s := Run(first, last, events);
             c in s.reading && s.reading[c].snapshot.Some? && Chosen(s, c).Some? &&
               !PassedRow(s, s.reading[c], Chosen(s, c).value)
    ensures var s := Run(first, last, events);
            var s' := Step(s, Finish(c));
            && s'.holding[c].port !in UsedPorts(s)
            && (forall d :: d in s'.holding && d != c ==> s'.holding[d].port != s'.holding[c].port)
  {
    AllocatedPortIsOurs(first, last, events, c);
  }

  lemma RunOn(first: Port, last: Port, events: seq<Event>, e: Event)
    ensures Run(first, last, events + [e]) == Step(Run(first, last, events), e)
  {
    assert (events + [e])[..|events|] == events;
  }

  lemma TwoReadsOverlap()
    ensures Run(1, 2, [Begin(0), Snapshot(0), Begin(1), Snapshot(1)]) ==
            State(1, 2, {}, map[], map[0 := Reading({}, Some({}), {}, {}), 1 := Reading({}, Some({}), {}, {})], map[])
  {
    var s0 := Initial(1, 2);
    assert Run(1, 2, []) == s0;
    RunOn(1, 2, [], Begin(0));
    RunOn(1, 2, [Begin(0)], Snapshot(0));
    RunOn(1, 2, [Begin(0), Snapshot(0)], Begin(1));
    RunOn(1, 2, [Begin(0), Snapshot(0), Begin(1)], Snapshot(1));
    assert [] + [Begin(0)] == [Begin(0)];
    assert [Begin(0)] + [Snapshot(0)] == [Begin(0), Snapshot(0)];
    assert [Begin(0), Snapshot(0)] + [Begin(1)] == [Begin(0), Snapshot(0), Begin(1)];
    assert [Begin(0), Snapshot(0), Begin(1)] + [Snapshot(1)] == [Begin(0), Snapshot(0), Begin(1), Snapshot(1)];
    hide Run;
    assert UsedPorts(s0) == {};
  }

  /** A whole take, save and release that falls into the read of caller 0. */
  const PASS: seq<Event> := [Begin(0), Snapshot(0), Begin(1), Snapshot(1)] + [Finish(1)] + [Save(1, 7)] + [Release(1)]

  lemma OnePasses()
    ensures var s := Run(1, 2, PASS);
            && s.rows == map[7 := PortRow(1, false)] && s.pending == {} && s.holding == map[]
            && 0 in s.reading && s.reading[0] == Reading({}, Some({}), {1}, {(1, 7)}) && s.first == 1 && s.last == 2
  {
    var events := [Begin(0), Snapshot(0), Begin(1), Snapshot(1)];
    TwoReadsOverlap();
    RunOn(1, 2, events, Finish(1));
    RunOn(1, 2, events + [Finish(1)], Save(1, 7));
    RunOn(1, 2, events + [Finish(1)] + [Save(1, 7)], Release(1));
    hide Run;
    var s4 := State(1, 2, {}, map[], map[0 := Reading({}, Some({}), {}, {}), 1 := Reading({}, Some({}), {}, {})],
      map[]);
    var s5 := Step(s4, Finish(1));
    assert Chosen(s4, 1) == Some(1);
    assert s5.holding == map[1 := Holding(1, None)];
    var s6 := Step(s5, Save(1, 7));
    assert s6.rows == map[7 := PortRow(1, false)];
    var s7 := Step(s6, Release(1));
    assert s7.holding == map[];
  }

  /** The slow reader is given the port of a row it never saw. A save as a live row is refused by the index; a
      row that is rolled back is saved, and shares the port until it would leave `error`. */
  lemma PassedPortIsHandedOutAgain()
    ensures var s := Run(1, 2, PASS);
            && 0 in s.reading && s.reading[0].snapshot.Some? && Chosen(s, 0) == Some(1) && 1 in UsedPorts(s)
            && PassedRow(s, s.reading[0], 1)
    ensures var s := Run(1, 2, PASS + [Finish(0)]);
            && Step(s, Save(0, 8)) == s
            && var s' := Run(1, 2, PASS + [Finish(0)] + [SaveInError(0, 8)]);
               && s'.rows == map[7 := PortRow(1, false), 8 := PortRow(1, true)]
               && Step(s', LeaveError(8)) == s'
  {
    OnePasses();
    RunOn(1, 2, PASS, Finish(0));
    RunOn(1, 2, PASS + [Finish(0)], SaveInError(0, 8));
    hide Run;
    var s := Run(1, 2, PASS);
    assert Free(1, {}, {}, {}) && Chosen(s, 0) == Some(1);
    assert 7 in s.rows && s.rows[7].port == 1;
    var held := Run(1, 2, PASS + [Finish(0)]);
    assert held.holding == map[0 := Holding(1, None)] && held.rows == s.rows;
    assert Clashes(held, 8, 1);
    var saved := Run(1, 2, PASS + [Finish(0)] + [SaveInError(0, 8)]);
    assert saved.rows == map[7 := PortRow(1, false), 8 := PortRow(1, true)];
    assert saved.rows[7].port == 1 && Clashes(saved, 8, 1);
  }

  /** When the row that passed is gone again the port is free after all. */
  lemma PassedRowMayBeGone()
    ensures var s := Run(1, 2, PASS + [Destroy(7)]);
            && 0 in s.reading && s.reading[0].snapshot.Some? && s.reading[0].passed != {}
            && Chosen(s, 0) == Some(1) && 1 !in UsedPorts(s)
  {
    OnePasses();
    RunOn(1, 2, PASS, Destroy(7));
    hide Run;
    var s := Run(1, 2, PASS + [Destroy(7)]);
    assert Free(1, {}, {}, {});
    assert (1, 7) in s.reading[0].passed;
  }

  // ----- The allocator -----

  class PortAllocator {
    const rangeStart: Port
    const rangeEnd: Port
    var pendingByHost: map<nat, set<Port>>

    constructor (rangeStart: Port, rangeEnd: Port)
      ensures this.rangeStart == rangeStart && this.rangeEnd == rangeEnd && pendingByHost == map[]
    {
      this.rangeStart, this.rangeEnd, pendingByHost := rangeStart, rangeEnd, map[];
    }

    function PendingFor(host: nat): set<Port>
      reads this
    {
      if host in pendingByHost then pendingByHost[host] else {}
    }

    /** The set FinishAllocate excludes besides what is held by then: ReleaseKeeps needs both. */
    method BeginAllocate(host: nat) returns (heldBeforeRead: set<Port>)
      modifies `pendingByHost
      ensures heldBeforeRead == old(PendingFor(host))
      ensures forall h :: PendingFor(h) == old(PendingFor(h))
    {
      if host !in pendingByHost {
        pendingByHost := pendingByHost[host := {}];
      }
      heldBeforeRead := pendingByHost[host];
    }

    method FinishAllocate(host: nat, usedPorts: set<Port>, heldBeforeRead: set<Port>) returns (port: Option<Port>)
      modifies `pendingByHost
      ensures port == Scan(rangeStart, rangeEnd, usedPorts, old(PendingFor(host)), heldBeforeRead)
      ensures PendingFor(host) == old(PendingFor(host)) + if port.Some? then {port.value} else {}
      ensures forall h :: h != host ==> PendingFor(h) == old(PendingFor(h))
      ensures port.Some? ==>
                && rangeStart <= port.value <= rangeEnd
                && port.value !in usedPorts + old(PendingFor(host)) + heldBeforeRead && port.value in PendingFor(host)
                && forall p :: rangeStart <= p < port.value ==>
                     p in usedPorts + old(PendingFor(host)) + heldBeforeRead
      ensures port.None? ==>
                forall p :: rangeStart <= p <= rangeEnd ==> p in usedPorts + old(PendingFor(host)) + heldBeforeRead
    {
      var pending := PendingFor(host);
      var p := rangeStart;
      while p <= rangeEnd
        invariant Scan(rangeStart, rangeEnd, usedPorts, pending, heldBeforeRead) ==
                    Scan(p, rangeEnd, usedPorts, pending, heldBeforeRead)
        invariant rangeStart <= p && forall q :: rangeStart <= q < p ==> q in usedPorts + pending + heldBeforeRead
        decreases rangeEnd + 1 - p
      {
        if p !in usedPorts && p !in pending && p !in heldBeforeRead {
          pendingByHost := pendingByHost[host := pending + {p}];
          return Some(p);
        }
        p := p + 1;
      }
      return None;
    }

    method Release(host: nat, port: Port)
      modifies `pendingByHost
      ensures PendingFor(host) == old(PendingFor(host)) - {port}
      ensures forall h :: h != host ==> PendingFor(h) == old(PendingFor(h))
    {
      if host in pendingByHost {
        pendingByHost := pendingByHost[host := pendingByHost[host] - {port}];
      }
    }
  }
}
