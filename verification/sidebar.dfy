/**
 * Date bucketing of the sidebar. Instants are milliseconds; whether two
 * instants fall on the same local calendar day (`toDateString` equality)
 * is a parameter, since it depends on the time zone.
 */
module Sidebar {
  import opened Wrappers
  import opened ConversationIndex

  datatype Group = Today | Yesterday | Previous7Days | Older

  const OneDayMs: int := 24 * 60 * 60 * 1000

  type SameDay = (int, int) -> bool

  /**
   * `getConversationGrouping`; `date` is `None` for a timestamp that does
   * not parse, whose `NaN` fails every comparison.
   */
  function Grouping(now: int, date: Option<int>, sameDay: SameDay): (g: Group)
    ensures g == Today <==> date.Some? && sameDay(now, date.value)
    ensures g == Yesterday <==> date.Some? && !sameDay(now, date.value) && now - date.value < 2 * OneDayMs
    ensures g == Previous7Days <==>
              date.Some? && !sameDay(now, date.value) && 2 * OneDayMs <= now - date.value < 7 * OneDayMs
    ensures g == Older <==> date.None? || (!sameDay(now, date.value) && now - date.value >= 7 * OneDayMs)
  {
    match date
    case None => Older
    case Some(d) =>
      var isToday := sameDay(now, d);
      var isYesterday := now - d < OneDayMs * 2 && !isToday;
      var withinLast7Days := now - d < OneDayMs * 7 && !isToday && !isYesterday;
      if isToday then Today
      else if isYesterday then Yesterday
      else if withinLast7Days then Previous7Days
      else Older
  }

  /** A timestamp in the future, on another day, is filed under "Yesterday". */
  lemma FutureIsYesterday(now: int, d: int, sameDay: SameDay)
    requires d > now && !sameDay(now, d)
    ensures Grouping(now, Some(d), sameDay) == Yesterday
  {
  }

  function GroupOf(e: Entry, now: int, sameDay: SameDay): Group
  {
    Grouping(now, e.lastUpdated, sameDay)
  }

  /** The entries of one group, in list order. */
  function InGroup(es: seq<Entry>, g: Group, now: int, sameDay: SameDay): (r: seq<Entry>)
    ensures |r| <= |es|
  {
    if |es| == 0 then []
    else
      InGroup(es[..|es| - 1], g, now, sameDay)
      + (if GroupOf(es[|es| - 1], now, sameDay) == g then [es[|es| - 1]] else [])
  }

  /** One more entry of the list joins its own group and no other. */
  lemma InGroupPrefix(es: seq<Entry>, i: nat, g: Group, now: int, sameDay: SameDay)
    requires i < |es|
    ensures InGroup(es[..i + 1], g, now, sameDay)
         == InGroup(es[..i], g, now, sameDay) + (if GroupOf(es[i], now, sameDay) == g then [es[i]] else [])
  {
    assert es[..i + 1][..i] == es[..i];
  }

  /** The last entry joins its own group and no other. */
  lemma InGroupLast(es: seq<Entry>, g: Group, now: int, sameDay: SameDay)
    requires |es| > 0
    ensures multiset(InGroup(es, g, now, sameDay))
         == multiset(InGroup(es[..|es| - 1], g, now, sameDay))
            + (if GroupOf(es[|es| - 1], now, sameDay) == g then multiset{es[|es| - 1]} else multiset{})
  {
  }

  /** Adding `x` to the bag of group `g` adds it once to the four bags together. */
  lemma OneBagGrows<T>(t: multiset<T>, y: multiset<T>, p: multiset<T>, o: multiset<T>, g: Group, x: T)
    ensures (t + (if g == Today then multiset{x} else multiset{}))
          + (y + (if g == Yesterday then multiset{x} else multiset{}))
          + (p + (if g == Previous7Days then multiset{x} else multiset{}))
          + (o + (if g == Older then multiset{x} else multiset{}))
         == t + y + p + o + multiset{x}
  {
  }

  /** The four groups split the list: together they hold every entry, each as often as the list does. */
  lemma {:induction false} GroupsPartition(es: seq<Entry>, now: int, sameDay: SameDay)
    ensures multiset(InGroup(es, Today, now, sameDay)) + multiset(InGroup(es, Yesterday, now, sameDay))
          + multiset(InGroup(es, Previous7Days, now, sameDay)) + multiset(InGroup(es, Older, now, sameDay))
         == multiset(es)
  {
    if |es| > 0 {
      var init, last := es[..|es| - 1], es[|es| - 1];
      GroupsPartition(init, now, sameDay);
      assert multiset(es) == multiset(init) + multiset{last} by {
        assert es == init + [last];
      }
      InGroupLast(es, Today, now, sameDay);
      InGroupLast(es, Yesterday, now, sameDay);
      InGroupLast(es, Previous7Days, now, sameDay);
      InGroupLast(es, Older, now, sameDay);
      OneBagGrows(multiset(InGroup(init, Today, now, sameDay)), multiset(InGroup(init, Yesterday, now, sameDay)),
                  multiset(InGroup(init, Previous7Days, now, sameDay)), multiset(InGroup(init, Older, now, sameDay)),
                  GroupOf(last, now, sameDay), last);
    }
  }

  /** A save answered without a parsable stamp files the saved conversation under "Older". */
  lemma UnstampedAnswerIsOlder(es: seq<Entry>, id: string, name: string, now: int, sameDay: SameDay)
    ensures Entry(id, name, None) in UpsertAfterSave(es, id, name, None)
    ensures GroupOf(Entry(id, name, None), now, sameDay) == Older
  {
    UpsertAfterSaveSpec(es, id, name, None);
  }

  /** The groups of a prefix of the list, keyed by group: a key is present iff its group has entries. */
  ghost predicate GroupedAs(grouped: map<Group, seq<Entry>>, es: seq<Entry>, now: int, sameDay: SameDay)
  {
    (forall g :: g in grouped <==> |InGroup(es, g, now, sameDay)| > 0)
    && (forall g :: g in grouped ==> grouped[g] == InGroup(es, g, now, sameDay))
  }

  /** `grouped[g]`, created empty when missing, with `e` pushed on it. */
  function Push(grouped: map<Group, seq<Entry>>, g: Group, e: Entry): map<Group, seq<Entry>>
  {
    grouped[g := (if g in grouped then grouped[g] else []) + [e]]
  }

  /** The map the `reduce` builds, one pushed entry at a time. */
  ghost function Grouped(es: seq<Entry>, now: int, sameDay: SameDay): map<Group, seq<Entry>>
  {
    if |es| == 0 then map[]
    else Push(Grouped(es[..|es| - 1], now, sameDay), GroupOf(es[|es| - 1], now, sameDay), es[|es| - 1])
  }

  /** The map built from one more entry of the list. */
  lemma GroupedPrefix(es: seq<Entry>, i: nat, now: int, sameDay: SameDay)
    requires i < |es|
    ensures Grouped(es[..i + 1], now, sameDay) == Push(Grouped(es[..i], now, sameDay), GroupOf(es[i], now, sameDay), es[i])
  {
    assert es[..i + 1][..i] == es[..i];
  }

  /** Pushing the next entry onto its group's list (created when missing) keeps the map grouped. */
  lemma GroupedStep(grouped: map<Group, seq<Entry>>, pushed: map<Group, seq<Entry>>, es: seq<Entry>, i: nat,
                    now: int, sameDay: SameDay)
    requires i < |es| && GroupedAs(grouped, es[..i], now, sameDay)
    requires pushed == Push(grouped, GroupOf(es[i], now, sameDay), es[i])
    ensures GroupedAs(pushed, es[..i + 1], now, sameDay)
  {
    var g, e := GroupOf(es[i], now, sameDay), es[i];
    forall h: Group
      ensures h in pushed <==> |InGroup(es[..i + 1], h, now, sameDay)| > 0
      ensures h in pushed ==> pushed[h] == InGroup(es[..i + 1], h, now, sameDay)
    {
      InGroupPrefix(es, i, h, now, sameDay);
      if h == g {
        assert pushed[h] == (if h in grouped then grouped[h] else []) + [e];
      } else {
        assert (h in pushed <==> h in grouped) && (h in grouped ==> pushed[h] == grouped[h]);
      }
    }
  }

  /** Whatever the list, the map the `reduce` builds holds exactly its non-empty groups. */
  lemma {:induction false} GroupedIsGroupedAs(es: seq<Entry>, now: int, sameDay: SameDay)
    ensures GroupedAs(Grouped(es, now, sameDay), es, now, sameDay)
  {
    if |es| > 0 {
      var n := |es| - 1;
      GroupedIsGroupedAs(es[..n], now, sameDay);
      GroupedStep(Grouped(es[..n], now, sameDay), Grouped(es, now, sameDay), es, n, now, sameDay);
      assert es[..n + 1] == es;
    }
  }

  /** `groupConversationsByDate`: a group is present iff it has entries, and holds them in list order. */
  method GroupConversationsByDate(es: seq<Entry>, now: int, sameDay: SameDay)
    returns (grouped: map<Group, seq<Entry>>)
    ensures grouped == Grouped(es, now, sameDay)
    ensures GroupedAs(grouped, es, now, sameDay)
  {
    grouped := map[];
    var i := 0;
    assert es[..0] == [];
    while i < |es|
      invariant 0 <= i <= |es|
      invariant grouped == Grouped(es[..i], now, sameDay)
    {
      var g := GroupOf(es[i], now, sameDay);
      GroupedPrefix(es, i, now, sameDay);
      if g !in grouped {
        grouped := grouped[g := []];
      }
      grouped := grouped[g := grouped[g] + [es[i]]];
      i := i + 1;
    }
    assert es[..i] == es;
    GroupedIsGroupedAs(es, now, sameDay);
  }

}
