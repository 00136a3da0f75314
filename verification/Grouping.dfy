/** From the rows a lease statement returns to the batches the dispatcher hands out. */
module Grouping {
  import opened Options
  import opened Inbox
  import opened DispatchSpec

  /** A row joins its bot's group; a bot not seen before gets a new one at the end. */
  function Add(groups: seq<Group>, bot: Bot, row: Id): seq<Group> {
    if groups == [] then [Group(bot, [row])]
    else if groups[0].bot == bot then [Group(bot, groups[0].rows + [row])] + groups[1..]
    else [groups[0]] + Add(groups[1..], bot, row)
  }

  function GroupByInstance(t: Table, leased: seq<Id>): seq<Group>
    requires forall id :: id in leased ==> id in t
  {
    if leased == [] then []
    else
      var last := leased[|leased| - 1];
      Add(GroupByInstance(t, leased[..|leased| - 1]), t[last].bot, last)
  }

  function RowsOf(groups: seq<Group>, bot: Bot): seq<Id> {
    if groups == [] then [] else if groups[0].bot == bot then groups[0].rows else RowsOf(groups[1..], bot)
  }

  function OfBot(t: Table, leased: seq<Id>, bot: Bot): seq<Id>
    requires forall id :: id in leased ==> id in t
  {
    if leased == [] then []
    else
      var last := leased[|leased| - 1];
      OfBot(t, leased[..|leased| - 1], bot) + if t[last].bot == bot then [last] else []
  }

  ghost predicate OneGroupPerBot(groups: seq<Group>) {
    forall i, j :: 0 <= i < j < |groups| ==> groups[i].bot != groups[j].bot
  }

  lemma {:induction false} AddJoins(groups: seq<Group>, bot: Bot, row: Id, other: Bot)
    ensures RowsOf(Add(groups, bot, row), other) == RowsOf(groups, other) + if other == bot then [row] else []
    decreases |groups|
  {
    if groups != [] {
      AddJoins(groups[1..], bot, row, other);
    }
  }

  lemma {:induction false} AddKeepsBots(groups: seq<Group>, bot: Bot, row: Id)
    requires OneGroupPerBot(groups)
    ensures OneGroupPerBot(Add(groups, bot, row))
    ensures forall g :: g in Add(groups, bot, row) ==> g.bot == bot || (exists h :: h in groups && h.bot == g.bot)
    decreases |groups|
  {
    if groups != [] && groups[0].bot != bot {
      AddKeepsBots(groups[1..], bot, row);
    }
  }

  /** Grouping keeps every bot's rows, in the order they were delivered. */
  lemma {:induction false} GroupsAreTheBotsRows(t: Table, leased: seq<Id>, bot: Bot)
    requires forall id :: id in leased ==> id in t
    ensures RowsOf(GroupByInstance(t, leased), bot) == OfBot(t, leased, bot)
  {
    if leased != [] {
      var before, last := leased[..|leased| - 1], leased[|leased| - 1];
      GroupsAreTheBotsRows(t, before, bot);
      AddJoins(GroupByInstance(t, before), t[last].bot, last, bot);
    }
  }

  lemma {:induction false} GroupsAreOnePerBot(t: Table, leased: seq<Id>)
    requires forall id :: id in leased ==> id in t
    ensures OneGroupPerBot(GroupByInstance(t, leased))
  {
    if leased != [] {
      var before, last := leased[..|leased| - 1], leased[|leased| - 1];
      GroupsAreOnePerBot(t, before);
      AddKeepsBots(GroupByInstance(t, before), t[last].bot, last);
    }
  }

  lemma {:induction false} OfBotIsFiltered(t: Table, leased: seq<Id>, bot: Bot)
    requires forall id :: id in leased ==> id in t
    ensures forall id :: id in OfBot(t, leased, bot) <==> id in leased && t[id].bot == bot
    ensures NoDuplicates(leased) ==> NoDuplicates(OfBot(t, leased, bot))
  {
    if leased != [] {
      var before, last := leased[..|leased| - 1], leased[|leased| - 1];
      assert leased == before + [last];
      OfBotIsFiltered(t, before, bot);
      assert NoDuplicates(leased) ==> NoDuplicates(before) && last !in before;
    }
  }

  /** Of two rows of a bot the one delivered first comes first in the bot's group. */
  lemma {:induction false} GroupsKeepTheOrder(t: Table, leased: seq<Id>, i: nat, j: nat, a: nat, b: nat)
    requires (forall id :: id in leased ==> id in t) && NoDuplicates(leased) && i < j < |leased|
    requires t[leased[i]].bot == t[leased[j]].bot
    requires var rows := RowsOf(GroupByInstance(t, leased), t[leased[i]].bot);
             a < |rows| && b < |rows| && rows[a] == leased[i] && rows[b] == leased[j]
    ensures a < b
  {
    var n, bot := |leased| - 1, t[leased[i]].bot;
    var before, rows := OfBot(t, leased[..n], bot), OfBot(t, leased, bot);
    GroupsAreTheBotsRows(t, leased, bot);
    GroupsAreTheBotsRows(t, leased[..n], bot);
    OfBotIsFiltered(t, leased[..n], bot);
    if j < n {
      assert a < |before| && b < |before|;
      GroupsKeepTheOrder(t, leased[..n], i, j, a, b);
    } else {
      assert leased[j] !in before;
      assert leased[i] != leased[j] && rows == before + [leased[j]];
    }
  }

  lemma {:induction false} RowsOfGroup(groups: seq<Group>, i: nat)
    requires OneGroupPerBot(groups) && i < |groups|
    ensures RowsOf(groups, groups[i].bot) == groups[i].rows
    decreases |groups|
  {
    if i > 0 {
      RowsOfGroup(groups[1..], i - 1);
    }
  }

  lemma {:induction false} GroupsHaveRows(t: Table, leased: seq<Id>, i: nat)
    requires (forall id :: id in leased ==> id in t) && i < |GroupByInstance(t, leased)|
    ensures GroupByInstance(t, leased)[i].rows != []
  {
    var before, last := leased[..|leased| - 1], leased[|leased| - 1];
    forall j | 0 <= j < |GroupByInstance(t, before)|
      ensures GroupByInstance(t, before)[j].rows != []
    {
      GroupsHaveRows(t, before, j);
    }
    AddKeepsRows(GroupByInstance(t, before), t[last].bot, last);
  }

  lemma {:induction false} AddKeepsRows(groups: seq<Group>, bot: Bot, row: Id)
    requires forall j :: 0 <= j < |groups| ==> groups[j].rows != []
    ensures forall j :: 0 <= j < |Add(groups, bot, row)| ==> Add(groups, bot, row)[j].rows != []
    decreases |groups|
  {
    if groups != [] && groups[0].bot != bot {
      AddKeepsRows(groups[1..], bot, row);
    }
  }

  /** What a lease statement picks for the bots asked for is what the dispatcher may hand out. */
  lemma LeasedRowsAreReturned(s: Dispatcher, t: Table, leased: seq<Id>)
    requires s.polling.Some? && NoDuplicates(leased)
    requires forall id :: id in leased ==> id in t && t[id].bot in s.polling.value.asking
    ensures Returned(s, GroupByInstance(t, leased))
  {
    var groups := GroupByInstance(t, leased);
    GroupsAreOnePerBot(t, leased);
    forall i | 0 <= i < |groups|
      ensures groups[i].rows == OfBot(t, leased, groups[i].bot)
      ensures groups[i].bot in s.polling.value.asking && NoDuplicates(groups[i].rows)
    {
      RowsOfGroup(groups, i);
      GroupsAreTheBotsRows(t, leased, groups[i].bot);
      OfBotIsFiltered(t, leased, groups[i].bot);
      GroupsHaveRows(t, leased, i);
      assert groups[i].rows[0] in groups[i].rows;
    }
    forall i, j | 0 <= i < j < |groups|
      ensures Disjoint(groups[i].rows, groups[j].rows)
    {
      OfBotIsFiltered(t, leased, groups[i].bot);
      OfBotIsFiltered(t, leased, groups[j].bot);
    }
  }
}
