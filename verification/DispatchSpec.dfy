/** The inbox dispatcher as a value: who waits, what is queued for a poll that ended too soon, and the one
    lease query that may be in flight. `begun`, `starts`, `answers` and `owed` are its history: `begun`
    has the bot of every poll, `starts` the time each query began at, `owed` the polls woken since a
    query last asked for their bot. */
module DispatchSpec {
  import opened Options
  import opened Inbox

  type Poll = nat

  /** One lease of one row, by a query: the first is number one. */
  datatype Lease = Lease(row: Id, query: nat)
  datatype Batch = Batch(items: seq<Lease>, leasedAt: Time)
  datatype Query = Query(asking: set<Bot>, leasedAt: Time)
  /** `queuedAt` is the stamp of a batch that came out of the queue. */
  datatype Answer = Answer(items: seq<Lease>, at: Time, queuedAt: Option<Time>)
  datatype Group = Group(bot: Bot, rows: seq<Id>)

  datatype Dispatcher = Dispatcher(
    waiters: map<Bot, Poll>,
    queued: map<Bot, Batch>,
    woken: set<Bot>,
    polling: Option<Query>,
    started: bool,
    stopped: bool,
    begun: seq<Bot>,
    starts: seq<Time>,
    answers: map<Poll, Answer>,
    owed: set<Poll>)

  const Initial := Dispatcher(map[], map[], {}, None, false, false, [], [], map[], {})

  function Resolve(s: Dispatcher, p: Poll, answer: Answer): Dispatcher {
    s.(answers := s.answers[p := answer])
  }

  /** Ends the poll of a bot that waits, if one does. */
  function End(s: Dispatcher, bot: Bot, answer: Answer): Dispatcher {
    if bot !in s.waiters then s
    else Resolve(s, s.waiters[bot], answer).(waiters := s.waiters - {bot})
  }

  predicate Waiting(s: Dispatcher, p: Poll) {
    p < |s.begun| && s.begun[p] in s.waiters && s.waiters[s.begun[p]] == p
  }

  predicate Ended(s: Dispatcher, waiting: set<Bot>, p: Poll) {
    Waiting(s, p) && s.begun[p] !in waiting
  }

  /** At most one poll of a bot waits. A queued batch is handed over inside its lease and forgotten after it. */
  function Waits(s: Dispatcher, bot: Bot, now: Time): Dispatcher {
    var p := |s.begun|;
    var s1 := s.(begun := s.begun + [bot]);
    if s.stopped then Resolve(s1, p, Answer([], now, None))
    else
      var s2 := s1.(queued := s.queued - {bot});
      if bot in s.queued && now - s.queued[bot].leasedAt < INBOX_LEASE_MS then
        Resolve(s2, p, Answer(s.queued[bot].items, now, Some(s.queued[bot].leasedAt)))
      else
        var s3 := End(s2, bot, Answer([], now, None));
        s3.(waiters := s3.waiters[bot := p])
  }

  function TimesOut(s: Dispatcher, bot: Bot, p: Poll, now: Time): Dispatcher {
    if bot in s.waiters && s.waiters[bot] == p then End(s, bot, Answer([], now, None)) else s
  }

  function PollsOf(s: Dispatcher, bots: set<Bot>): set<Poll> {
    set bot | bot in bots && bot in s.waiters :: s.waiters[bot]
  }

  function Ticks(s: Dispatcher, bots: set<Bot>, now: Time): Dispatcher {
    var asking := bots * s.waiters.Keys;
    if s.polling.Some? || asking == {} then s
    else s.(polling := Some(Query(asking, now)), starts := s.starts + [now], owed := s.owed - PollsOf(s, asking))
  }

  /** Without a waiting poll a wake is dropped; while a query runs it is noted for the end of that query. */
  function Wakes(s: Dispatcher, bot: Bot, now: Time): Dispatcher {
    if bot !in s.waiters then s
    else
      var s1 := s.(owed := if s.started then s.owed + {s.waiters[bot]} else s.owed);
      if s.polling.Some? then s1.(woken := s.woken + {bot}) else Ticks(s1, {bot}, now)
  }

  // ----- The end of a query -----

  function Tokens(rows: seq<Id>, query: nat): seq<Lease> {
    seq(|rows|, i requires 0 <= i < |rows| => Lease(rows[i], query))
  }

  function Min(a: int, b: int): int {
    if a < b then a else b
  }

  /** To the poll that waits; else into the queue, stamped with the older of the two clocks. */
  function HandsOut(s: Dispatcher, bot: Bot, items: seq<Lease>, leasedAt: Time, now: Time): Dispatcher {
    if bot in s.waiters then End(s, bot, Answer(items, now, None))
    else
      s.(queued := s.queued[bot :=
        if bot in s.queued then Batch(s.queued[bot].items + items, Min(s.queued[bot].leasedAt, leasedAt))
          else Batch(items, leasedAt)])
  }

  function HandsOutAll(s: Dispatcher, groups: seq<Group>, leasedAt: Time, now: Time): Dispatcher {
    if groups == [] then s
    else
      var last := groups[|groups| - 1];
      HandsOut(HandsOutAll(s, groups[..|groups| - 1], leasedAt, now), last.bot, Tokens(last.rows, |s.starts|), leasedAt,
        now)
  }

  function Ends(s: Dispatcher, now: Time): Dispatcher {
    var s1 := s.(polling := None, woken := {});
    if s.woken != {} && s.started then Ticks(s1, s.woken, now) else s1
  }

  /** What one lease statement returns: rows of bots it asked for, grouped by bot, each row once. */
  ghost predicate Returned(s: Dispatcher, groups: seq<Group>) {
    && s.polling.Some?
    && (forall i :: 0 <= i < |groups| ==> groups[i].bot in s.polling.value.asking && NoDuplicates(groups[i].rows))
    && (forall i, j :: 0 <= i < j < |groups| ==>
         groups[i].bot != groups[j].bot && Disjoint(groups[i].rows, groups[j].rows))
  }

  ghost predicate NoDuplicates<T>(s: seq<T>) {
    forall i, j :: 0 <= i < j < |s| ==> s[i] != s[j]
  }

  ghost predicate Disjoint<T>(a: seq<T>, b: seq<T>) {
    forall x :: x in a ==> x !in b
  }

  ghost function QueryReturns(s: Dispatcher, groups: seq<Group>, now: Time): Dispatcher {
    if !Returned(s, groups) then s else Ends(HandsOutAll(s, groups, s.polling.value.leasedAt, now), now)
  }

  function QueryFails(s: Dispatcher, now: Time): Dispatcher {
    if s.polling.None? then s else Ends(s, now)
  }

  // ----- The rest -----

  function Starts(s: Dispatcher): Dispatcher {
    s.(stopped := false, started := true)
  }

  /** The answers once every bot outside `waiting` had its poll ended. */
  function AnswersAfter(s: Dispatcher, waiting: set<Bot>, now: Time): map<Poll, Answer> {
    s.answers + map p | 0 <= p < |s.begun| && Ended(s, waiting, p) :: Answer([], now, None)
  }

  function Stops(s: Dispatcher, now: Time): Dispatcher {
    s.(stopped := true, started := false, woken := {}, waiters := map[],
       answers := AnswersAfter(s, {}, now))
  }

  function Forgets(s: Dispatcher, now: Time): Dispatcher {
    s.(queued := map bot | bot in s.queued && now - s.queued[bot].leasedAt < INBOX_LEASE_MS :: s.queued[bot])
  }

  datatype Event =
    | Wait(bot: Bot, now: Time) | Timeout(bot: Bot, p: Poll, now: Time)
    | Wake(bot: Bot, now: Time) | Interval(now: Time)
    | QueryReturn(groups: seq<Group>, now: Time) | QueryFail(now: Time)
    | Start | Stop(now: Time) | Forget(now: Time)

  ghost function Step(s: Dispatcher, e: Event): Dispatcher {
    match e
    case Wait(bot, now) => Waits(s, bot, now)
    case Timeout(bot, p, now) => TimesOut(s, bot, p, now)
    case Wake(bot, now) => Wakes(s, bot, now)
    case Interval(now) => Ticks(s, s.waiters.Keys, now)
    case QueryReturn(groups, now) => QueryReturns(s, groups, now)
    case QueryFail(now) => QueryFails(s, now)
    case Start => Starts(s)
    case Stop(now) => Stops(s, now)
    case Forget(now) => Forgets(s, now)
  }

  ghost function Run(events: seq<Event>): Dispatcher {
    if events == [] then Initial else Step(Run(events[..|events| - 1]), events[|events| - 1])
  }
}
