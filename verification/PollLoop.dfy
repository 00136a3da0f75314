/** The poll loop as the plugin runs it: one object whose methods are the stretches between two awaits.
    Each method is tied to its step in PollSpec, so what PollProofs says of runs holds of this object. */
module PollLoop {
  import opened Options
  import opened PollSpec
  import opened PollBatches
  import opened PollProofs

  class PollLoop {
    const limits: Limits
    var mode: Mode
    var seen: seq<Wamid>
    var inFlight: set<Wamid>
    var lanes: map<Customer, Lane>
    var pending: seq<Entry>
    var failedHead: map<Customer, Head>
    var late: map<Ticket, LateTurn>
    // History only.
    var accepted: seq<Item>
    ghost var owners: map<Ticket, Wamid>
    ghost var starts: seq<Entry>
    ghost var remembered: seq<Wamid>
    ghost var acked: seq<Item>
    ghost var abandoned: set<Wamid>

    ghost function State(): Loop
      reads this
    {
      Loop(limits, mode, seen, inFlight, lanes, pending, failedHead, late, accepted, owners, starts, remembered, acked,
        abandoned)
    }

    ghost predicate Valid()
      reads this
    {
      Inv(State())
    }

    constructor (limits: Limits)
      ensures State() == Init(limits) && Valid()
    {
      this.limits := limits;
      mode, seen, inFlight, lanes, pending, failedHead, late := Stopped, [], {}, map[], [], map[], map[];
      accepted, owners, starts, remembered, acked, abandoned := [], map[], [], [], [], {};
      new;
      RunKeeps(limits, []);
    }

    method Start()
      requires Valid()
      modifies this
      ensures State() == Starts(old(State())) && Valid()
      ensures mode == (if old(mode).Stopped? then Running(false) else old(mode))
    {
      hide Inv, Lined, Line, Holding, Room;
      StepKeeps(State(), Event.Start);
      if mode.Stopped? {
        mode := Running(false);
      }
    }

    /** Whatever waits for a lane is let go without an ack; lanes under way go on. */
    method Stop()
      requires Valid()
      modifies this
      ensures State() == Stops(old(State())) && Valid()
      ensures mode.Stopped? && pending == [] && lanes == old(lanes) && acked == old(acked) && starts == old(starts)
      ensures inFlight == old(inFlight) - (set e | e in old(pending) :: e.item.wamid)
    {
      hide Inv, Lined, Line, Holding, Room;
      StepKeeps(State(), Event.Stop);
      DropPendingForm(State().(mode := Stopped));
      mode := Stopped;
      while pending != []
        invariant DropPending(State()) == Stops(old(State()))
        decreases |pending|
      {
        var item := pending[0];
        pending := pending[1..];
        inFlight := inFlight - {item.item.wamid};
        owners := Without(owners, item.ticket);
      }
    }

    // The wait for room and the pull behind it.
    method BeginPull() returns (sent: bool)
      requires Valid()
      modifies this
      ensures State() == PullStarts(old(State())) && Valid()
      ensures sent ==> pending == [] && |lanes| < limits.maxInFlight
      ensures sent <==> old(mode) == Running(false) && |lanes| < limits.maxInFlight
      ensures mode == (if sent then Running(true) else old(mode)) && lanes == old(lanes)
    {
      hide Inv, Lined, Line, Holding, Room;
      StepKeeps(State(), PullStart);
      if |lanes| < limits.maxInFlight {
        RoomMeansNothingPending(State());
      }
      sent := mode == Running(false) && |lanes| < limits.maxInFlight;
      if sent {
        mode := Running(true);
      }
    }

    // A whole batch is taken in one synchronous stretch.
    method ReceivePull(items: seq<Item>)
      requires Valid()
      modifies this
      ensures State() == PullReturns(old(State()), items) && Valid()
      ensures if old(mode) == Running(true)
              then mode == Running(false) && Takes(old(State()).(mode := Running(false)), State(), items)
              else State() == old(State())
      ensures old(mode) == Running(true) ==>
                forall c :: Line(State(), c) ==
                  old(Line(State(), c)) + LinedUp(NewOf(old(seen), old(inFlight), items), |old(accepted)|, c)
    {
      hide Inv, Lined, Line, Holding, Room, Takes, NewOf, LinedUp;
      StepKeeps(State(), PullReturn(items));
      if mode != Running(true) {
        return;
      }
      ReturnedBatchIsTaken(State(), items);
      mode := Running(false);
      ghost var s := State();
      var i := 0;
      while i < |items|
        invariant 0 <= i <= |items|
        invariant EnqueueAll(s, items) == EnqueueAll(State(), items[i..])
      {
        assert items[i..][0] == items[i] && items[i..][1..] == items[i + 1..];
        EnqueueItem(items[i]);
        i := i + 1;
      }
      assert items[i..] == [];
    }

    method FailPull(unauthorized: bool)
      requires Valid()
      modifies this
      ensures State() == PullFails(old(State()), unauthorized) && Valid()
      ensures mode == if old(mode) != Running(true) then old(mode)
                      else if unauthorized then Rejected else Running(false)
    {
      hide Inv, Lined, Line, Holding, Room;
      StepKeeps(State(), PullFail(unauthorized));
      if mode == Running(true) {
        mode := if unauthorized then Rejected else Running(false);
      }
    }

    /** Where a customer's Line grows (EnqueueLines), at its end, on a lane or among the pending. */
    method EnqueueItem(item: Item)
      modifies this
      ensures State() == Enqueue(old(State()), item)
      ensures item.wamid in old(seen) ==> acked == old(acked) + [item] && accepted == old(accepted)
      ensures item.wamid in old(inFlight) && item.wamid !in old(seen) ==> State() == old(State())
      ensures item.wamid !in old(seen) && item.wamid !in old(inFlight) ==>
                && accepted == old(accepted) + [item] && inFlight == old(inFlight) + {item.wamid}
                && var e := Entry(item, |old(accepted)|);
                   if item.from in old(lanes) || |old(lanes)| < limits.maxInFlight
                   then item.from in lanes && lanes[item.from].queue != [] && pending == old(pending) &&
                     lanes[item.from].queue[|lanes[item.from].queue| - 1] == e
                   else pending == old(pending) + [e] && lanes == old(lanes)
    {
      hide Inv, Lined, Line, Holding, StartOnLane, ClearFailedHead;
      ghost var s := State();
      if item.wamid in seen {
        acked := acked + [item];
        return;
      }
      if item.wamid in inFlight {
        return;
      }
      // The hold goes with the return of the very message that caused it.
      ClearHead(item);
      inFlight := inFlight + {item.wamid};
      var e := Entry(item, |accepted|);
      owners := owners[|accepted| := item.wamid];
      accepted := accepted + [item];
      assert State() == Accepted(s, item);
      if item.from !in lanes && |lanes| >= limits.maxInFlight {
        pending := pending + [e];
      } else {
        PutOnLane(e);
      }
    }

    method ClearHead(item: Item)
      modifies `failedHead
      ensures failedHead == ClearFailedHead(old(failedHead), item)
    {
      if item.from in failedHead && failedHead[item.from].wamid == item.wamid {
        failedHead := Without(failedHead, item.from);
      }
    }

    method PutOnLane(e: Entry)
      modifies `lanes
      ensures State() == StartOnLane(old(State()), e)
      ensures e.item.from in lanes && lanes[e.item.from].queue != []
      ensures lanes[e.item.from].queue[|lanes[e.item.from].queue| - 1] == e
    {
      var from := e.item.from;
      lanes := lanes[from := if from in lanes then lanes[from].(queue := lanes[from].queue + [e])
        else Lane([e], Waiting)];
    }

    method DrainPending()
      modifies `lanes, `pending
      ensures State() == Drain(old(State()))
      ensures pending != [] ==> |lanes| >= limits.maxInFlight
      ensures |pending| <= |old(pending)| && pending == old(pending)[|old(pending)| - |pending|..]
    {
      LongestWaitingGoFirst(State());
      while pending != [] && |lanes| < limits.maxInFlight
        invariant Drain(State()) == Drain(old(State()))
        decreases |pending|
      {
        var first := pending[0];
        pending := pending[1..];
        PutOnLane(first);
      }
    }

    /** Under a hold the message is skipped, so no later message of the customer overtakes the failed one. */
    method BeginTurn(c: Customer, now: int) returns (started: bool)
      requires Valid()
      modifies this
      ensures State() == TurnStarts(old(State()), c, now) && Valid()
      ensures started ==> !LaneHeld(old(State()), c, now)
      ensures started <==>
                && c in old(lanes) && old(lanes)[c].queue != [] && old(lanes)[c].phase.Waiting?
                && !(c in old(failedHead) && now - old(failedHead)[c].at <= limits.handleTimeoutMs)
      ensures started ==>
                && starts == old(starts) + [old(lanes)[c].queue[0]] && c !in failedHead && inFlight == old(inFlight)
                && lanes == old(lanes)[c := Lane(old(lanes)[c].queue, Turning)]
      ensures !started && c in old(lanes) && old(lanes)[c].queue != [] && old(lanes)[c].phase.Waiting? ==>
                && starts == old(starts) && failedHead == old(failedHead) && acked == old(acked) && seen == old(seen)
                && inFlight == old(inFlight) - {old(lanes)[c].queue[0].item.wamid}
                && lanes == old(lanes)[c := Lane(old(lanes)[c].queue, Settling)]
    {
      hide Inv, Lined, Line, Holding, Room;
      StepKeeps(State(), TurnStart(c, now));
      started := false;
      if c !in lanes || lanes[c].queue == [] || !lanes[c].phase.Waiting? {
        return;
      }
      var e := lanes[c].queue[0];
      if c in failedHead && now - failedHead[c].at <= limits.handleTimeoutMs {
        inFlight := inFlight - {e.item.wamid};
        owners := Without(owners, e.ticket);
        lanes := lanes[c := lanes[c].(phase := Settling)];
        return;
      }
      failedHead := Without(failedHead, c);
      starts := starts + [e];
      lanes := lanes[c := lanes[c].(phase := Turning)];
      started := true;
    }

    method RememberWamid(w: Wamid)
      modifies `seen, `remembered
      ensures State() == Remember(old(State()), w)
      ensures w in seen
    {
      if w !in seen {
        seen := seen + [w];
        remembered := remembered + [w];
        assert seen[|seen| - 1] == w;
        if |seen| > SEEN_LIMIT {
          seen := seen[1..];
          assert seen[|seen| - 1] == w;
        }
      }
    }

    method CompleteTurn(c: Customer)
      requires Valid() && AtHead(State(), c, Turning)
      modifies this
      ensures State() == TurnSucceeds(old(State()), c) && Valid()
      ensures var item := old(lanes)[c].queue[0].item;
              && item.wamid in seen && inFlight == old(inFlight) - {item.wamid} && acked == old(acked) + [item]
              && lanes == old(lanes)[c := Lane(old(lanes)[c].queue, Settling)]
      ensures failedHead == old(failedHead) && late == old(late)
    {
      hide Inv, Lined, Line, Holding, Room;
      StepKeeps(State(), TurnSuccess(c));
      var e := lanes[c].queue[0];
      RememberWamid(e.item.wamid);
      inFlight := inFlight - {e.item.wamid};
      owners := Without(owners, e.ticket);
      acked := acked + [e.item];
      lanes := lanes[c := lanes[c].(phase := Settling)];
    }

    /** No ack is sent, so the row stays open and comes again. A timed-out turn is kept in `late`. */
    method FailTurn(c: Customer, timedOut: bool, now: int)
      requires Valid() && AtHead(State(), c, Turning)
      modifies this
      ensures Valid()
      ensures State() == if timedOut then TurnTimesOut(old(State()), c, now) else TurnFails(old(State()), c, now)
      ensures var e := old(lanes)[c].queue[0];
              && failedHead == old(failedHead)[c := Head(e.item.wamid, now)]
              && inFlight == (if timedOut then old(inFlight) else old(inFlight) - {e.item.wamid})
              && late == (if timedOut then old(late)[e.ticket := LateTurn(e.item, false)] else old(late))
              && lanes == old(lanes)[c := Lane(old(lanes)[c].queue, Settling)]
      ensures acked == old(acked) && seen == old(seen) && starts == old(starts)
    {
      hide Inv, Lined, Line, Holding, Room;
      HeadIsFromLane(State(), c);
      StepKeeps(State(), if timedOut then TurnTimeout(c, now) else TurnFailure(c, now));
      var e := lanes[c].queue[0];
      failedHead := failedHead[e.item.from := Head(e.item.wamid, now)];
      if timedOut {
        late := late[e.ticket := LateTurn(e.item, false)];
      } else {
        inFlight := inFlight - {e.item.wamid};
        owners := Without(owners, e.ticket);
      }
      lanes := lanes[c := lanes[c].(phase := Settling)];
    }

    method SettleLane(c: Customer)
      requires Valid() && AtHead(State(), c, Settling)
      modifies this
      ensures State() == LaneAdvances(old(State()), c) && Valid()
      ensures pending != [] ==> |lanes| >= limits.maxInFlight
      ensures |old(lanes)[c].queue| > 1 ==>
                c in lanes && lanes[c].phase.Waiting? && old(lanes)[c].queue[1..] <= lanes[c].queue
      ensures forall d :: Line(State(), d) == old(Line(State(), d))
      ensures |pending| <= |old(pending)| && pending == old(pending)[|old(pending)| - |pending|..]
    {
      hide Inv, Lined, Line, Holding, Room;
      StepKeeps(State(), LaneAdvance(c));
      AdvanceMovesOn(State(), c);
      if |lanes[c].queue| == 1 {
        lanes := Without(lanes, c);
      } else {
        lanes := lanes[c := Lane(lanes[c].queue[1..], Waiting)];
      }
      DrainPending();
    }

    /** The end of a timed-out turn. Until then its wamid is in flight, so no second handler starts. */
    method FinishLate(t: Ticket, succeeded: bool)
      requires Valid() && IsLate(State(), t)
      modifies this
      ensures State() == (if succeeded then LateSucceeds(old(State()), t) else LateFails(old(State()), t)) && Valid()
      ensures var item := old(late)[t].item;
              && late == old(late) - {t} && inFlight == old(inFlight) - {item.wamid} && lanes == old(lanes)
              && (if succeeded
                  then item.wamid in seen && acked == old(acked) + [item] &&
                    !(item.from in failedHead && failedHead[item.from].wamid == item.wamid)
                  else seen == old(seen) && acked == old(acked) && failedHead == old(failedHead))
    {
      hide Inv, Lined, Line, Holding, Room;
      StepKeeps(State(), if succeeded then LateSuccess(t) else LateFailure(t));
      var item := late[t].item;
      if succeeded {
        RememberWamid(item.wamid);
        ClearHead(item);
        acked := acked + [item];
      }
      inFlight := inFlight - {item.wamid};
      owners := Without(owners, t);
      late := Without(late, t);
    }

    /** From here on OneHandlerPerMessage no longer speaks of this message. The timer of a turn that has ended
        does not fire. */
    method AbandonLate(t: Ticket)
      requires Valid()
      modifies this
      ensures State() == Abandons(old(State()), t) && Valid()
      ensures !old(t in late && !late[t].abandoned) ==> State() == old(State())
      ensures old(t in late && !late[t].abandoned) ==>
              var item := old(late)[t].item;
              && late == old(late)[t := LateTurn(item, true)] && inFlight == old(inFlight) - {item.wamid}
              && seen == old(seen) && acked == old(acked) && failedHead == old(failedHead) && lanes == old(lanes)
    {
      hide Inv, Lined, Line, Holding, Room;
      StepKeeps(State(), Abandon(t));
      if t !in late || late[t].abandoned {
        return;
      }
      var item := late[t].item;
      inFlight := inFlight - {item.wamid};
      owners := Without(owners, t);
      abandoned := abandoned + {item.wamid};
      late := late[t := LateTurn(item, true)];
    }
  }
}
