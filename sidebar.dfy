/** The sidebar's grouping of conversations by creation day (rendering left out). */
module Sidebar {
  import opened Seqs
  import opened Conversations

  /** One day in milliseconds. */
  const DAY_MS: int := 86400000

  /** The three lists the sidebar renders under "Today", "Yesterday" and "Older". */
  datatype Groups = Groups(today: seq<ConversationModel>, yesterday: seq<ConversationModel>, older: seq<ConversationModel>)

  /** Created at or after today's midnight. */
  predicate IsToday(createdAt: int, today: int) {
    createdAt >= today
  }

  /** Created during the day before today's midnight. */
  predicate IsYesterday(createdAt: int, today: int) {
    var yesterday := today - DAY_MS;
    createdAt >= yesterday && createdAt < today
  }

  /** Created before yesterday's midnight. */
  predicate IsOlder(createdAt: int, today: int) {
    var yesterday := today - DAY_MS;
    createdAt < yesterday
  }

  /** The three filter callbacks, each defined once. */
  function TodayRule(today: int): ConversationModel -> bool {
    (c: ConversationModel) => IsToday(c.createdAt, today)
  }

  function YesterdayRule(today: int): ConversationModel -> bool {
    (c: ConversationModel) => IsYesterday(c.createdAt, today)
  }

  function OlderRule(today: int): ConversationModel -> bool {
    (c: ConversationModel) => IsOlder(c.createdAt, today)
  }

  /**
   * `groupedConversations`, where `today` is the timestamp of today's midnight:
   * three filters over the list. A conversation is in a group exactly when the
   * group's rule holds of its `createdAt`, and every conversation is in some group.
   */
  function GroupConversations(conversations: seq<ConversationModel>, today: int): (g: Groups)
    ensures forall c <- g.today :: c in conversations && c.createdAt >= today
    ensures forall c <- g.yesterday :: c in conversations && today - DAY_MS <= c.createdAt < today
    ensures forall c <- g.older :: c in conversations && c.createdAt < today - DAY_MS
    ensures forall c <- conversations :: c in g.today || c in g.yesterday || c in g.older
  {
    Groups(
      Filter(conversations, TodayRule(today)),
      Filter(conversations, YesterdayRule(today)),
      Filter(conversations, OlderRule(today)))
  }

  /** The three filters split the list's multiset, one element at a time. */
  lemma {:induction false} FiltersPartition(cs: seq<ConversationModel>, today: int)
    ensures multiset(Filter(cs, TodayRule(today))) + multiset(Filter(cs, YesterdayRule(today))) +
            multiset(Filter(cs, OlderRule(today))) == multiset(cs)
  {
    if cs != [] {
      FiltersPartition(cs[1..], today);
      var c := cs[0];
      assert cs == [c] + cs[1..];
      assert TodayRule(today)(c) == IsToday(c.createdAt, today);
      assert YesterdayRule(today)(c) == IsYesterday(c.createdAt, today);
      assert OlderRule(today)(c) == IsOlder(c.createdAt, today);
    }
  }

  /**
   * The groups partition the list: together they hold every conversation exactly as
   * often as the list does, so their sizes add up to the list's length.
   */
  lemma GroupsPartition(conversations: seq<ConversationModel>, today: int)
    ensures var g := GroupConversations(conversations, today);
      multiset(g.today) + multiset(g.yesterday) + multiset(g.older) == multiset(conversations)
    ensures var g := GroupConversations(conversations, today);
      |g.today| + |g.yesterday| + |g.older| == |conversations|
  {
    FiltersPartition(conversations, today);
    var g := GroupConversations(conversations, today);
    assert |multiset(g.today) + multiset(g.yesterday) + multiset(g.older)| == |multiset(conversations)|;
  }

  /** Each group keeps the list's order: grouping a concatenation concatenates the groups. */
  lemma GroupsPreserveOrder(a: seq<ConversationModel>, b: seq<ConversationModel>, today: int)
    ensures var ga, gb, g := GroupConversations(a, today), GroupConversations(b, today), GroupConversations(a + b, today);
      g.today == ga.today + gb.today && g.yesterday == ga.yesterday + gb.yesterday && g.older == ga.older + gb.older
  {
    FilterConcat(a, b, TodayRule(today));
    FilterConcat(a, b, YesterdayRule(today));
    FilterConcat(a, b, OlderRule(today));
  }
}
