/**
 * The sidebar's conversation list in the browser clients: the update applied
 * after a save answers, the order by `last_updated`, the lookup of an unnamed
 * conversation, and the cleaning of a generated name.
 */
module ConversationIndex {
  import opened Wrappers
  import opened Text
  import opened Lists
  import opened Messages
  import opened StableSort

  /**
   * A sidebar entry of the newer clients. `lastUpdated` is the instant in
   * milliseconds that `new Date(last_updated)` denotes, or `None` when that
   * date is invalid (`NaN`): the stamp is missing or does not parse.
   */
  datatype Entry = Entry(id: string, name: string, lastUpdated: Option<int>)

  /** The sort key of an entry whose stamp parses. */
  function LastUpdated(e: Entry): int { if e.lastUpdated.Some? then e.lastUpdated.value else 0 }

  /** Every entry's stamp parses. */
  predicate AllStamped(es: seq<Entry>)
  {
    forall k :: 0 <= k < |es| ==> es[k].lastUpdated.Some?
  }

  function EntryId(e: Entry): string { e.id }

  function HasId(id: string): Entry -> bool { (e: Entry) => e.id == id }

  function HasName(name: string): Entry -> bool { (e: Entry) => e.name == name }

  /**
   * The list copied and sorted by `last_updated`, newest first. When every
   * stamp parses, the comparator is consistent and `sort` is a stable sort
   * by the instant. An invalid date makes the comparator answer `NaN`,
   * which `sort` takes as a tie with every entry; the comparator is then
   * inconsistent and the order is implementation-defined (section 23.1.3.30
   * of ECMA-262), so only the permutation is promised, and the list is kept
   * in its order.
   */
  function SortByLastUpdated(es: seq<Entry>): (r: seq<Entry>)
    ensures multiset(r) == multiset(es) && |r| == |es|
    ensures AllStamped(es) ==> SortedDesc(r, LastUpdated)
    ensures AllStamped(es) ==> forall t :: WithKey(r, LastUpdated, t) == WithKey(es, LastUpdated, t)
  {
    SortDescSorted(es, LastUpdated);
    SortDescPermutes(es, LastUpdated);
    forall t ensures WithKey(SortDesc(es, LastUpdated), LastUpdated, t) == WithKey(es, LastUpdated, t) {
      SortDescStable(es, LastUpdated, t);
    }
    if AllStamped(es) then SortDesc(es, LastUpdated) else es
  }

  /**
   * `sortConversationsByLastUpdated`: the entries are copied into a fresh
   * array, which `sort` reorders in place.
   */
  method SortConversations(es: seq<Entry>) returns (r: seq<Entry>)
    ensures r == SortByLastUpdated(es)
  {
    if !AllStamped(es) {
      return es;
    }
    var a := new Entry[|es|](k requires 0 <= k < |es| => es[k]);
    assert a[..] == es;
    SortInPlace(a, LastUpdated);
    r := a[..];
  }

  /** The list before sorting: the saved entry renamed and re-stamped in place, or appended. */
  function Upserted(es: seq<Entry>, id: string, name: string, stamp: Option<int>): seq<Entry>
  {
    match FirstIndex(es, HasId(id))
    case Some(i) => es[i := es[i].(name := name, lastUpdated := stamp)]
    case None => es + [Entry(id, name, stamp)]
  }

  /**
   * The `setConversations` updater run when a save answers with any JSON
   * body; `stamp` is its `last_updated`, `None` when the body has none.
   */
  function UpsertAfterSave(es: seq<Entry>, id: string, name: string, stamp: Option<int>): seq<Entry>
  {
    SortByLastUpdated(Upserted(es, id, name, stamp))
  }

  /** Reordering keeps every stamp parsable. */
  lemma PermutationKeepsStamps(u: seq<Entry>, r: seq<Entry>)
    requires multiset(u) == multiset(r) && AllStamped(u)
    ensures AllStamped(r)
  {
    forall k | 0 <= k < |r| ensures r[k].lastUpdated.Some? {
      assert r[k] in multiset(r);
      var m :| 0 <= m < |u| && u[m] == r[k];
    }
  }

  lemma ReplaceSpec(es: seq<Entry>, i: nat, e: Entry)
    requires i < |es| && es[i].id == e.id
    ensures multiset(es[i := e]) == multiset(es) - multiset{es[i]} + multiset{e}
    ensures e in es[i := e]
    ensures UniqueKeys(es, EntryId) ==> UniqueKeys(es[i := e], EntryId)
  {
    var u := es[i := e];
    assert es == es[..i] + [es[i]] + es[i + 1..];
    assert u == es[..i] + [e] + es[i + 1..];
    assert u[i] == e;
    forall k | 0 <= k < |es| ensures EntryId(u[k]) == EntryId(es[k]) {}
  }

  lemma AppendSpec(es: seq<Entry>, e: Entry)
    requires forall k :: 0 <= k < |es| ==> es[k].id != e.id
    ensures multiset(es + [e]) == multiset(es) + multiset{e}
    ensures e in es + [e]
    ensures UniqueKeys(es, EntryId) ==> UniqueKeys(es + [e], EntryId)
  {
    assert (es + [e])[|es|] == e;
  }

  lemma UpsertedSpec(es: seq<Entry>, id: string, name: string, stamp: Option<int>)
    ensures var u := Upserted(es, id, name, stamp);
      (match FirstIndex(es, HasId(id))
       case Some(i) => multiset(u) == multiset(es) - multiset{es[i]} + multiset{Entry(id, name, stamp)}
       case None => multiset(u) == multiset(es) + multiset{Entry(id, name, stamp)})
      && Entry(id, name, stamp) in u
      && (UniqueKeys(es, EntryId) ==> UniqueKeys(u, EntryId))
      && (stamp.Some? && AllStamped(es) ==> AllStamped(u))
  {
    match FirstIndex(es, HasId(id))
    case Some(i) =>
      assert Upserted(es, id, name, stamp) == es[i := Entry(id, name, stamp)];
      ReplaceSpec(es, i, Entry(id, name, stamp));
    case None =>
      forall k | 0 <= k < |es| ensures es[k].id != id {
        assert !HasId(id)(es[k]);
      }
      AppendSpec(es, Entry(id, name, stamp));
  }

  /**
   * After a save, the list is a reordering of the old list with the first
   * entry of that id renamed and re-stamped (or, for an unknown id, with one
   * entry added); distinct ids stay distinct. It is sorted newest first
   * whenever every stamp in it parses, which a stamped answer keeps so.
   */
  lemma UpsertAfterSaveSpec(es: seq<Entry>, id: string, name: string, stamp: Option<int>)
    ensures var r := UpsertAfterSave(es, id, name, stamp);
      (match FirstIndex(es, HasId(id))
       case Some(i) => multiset(r) == multiset(es) - multiset{es[i]} + multiset{Entry(id, name, stamp)}
       case None => multiset(r) == multiset(es) + multiset{Entry(id, name, stamp)})
      && Entry(id, name, stamp) in r
      && (UniqueKeys(es, EntryId) ==> UniqueKeys(r, EntryId))
      && (AllStamped(r) ==> SortedDesc(r, LastUpdated))
      && (stamp.Some? && AllStamped(es) ==> AllStamped(r))
  {
    var u := Upserted(es, id, name, stamp);
    var r := UpsertAfterSave(es, id, name, stamp);
    UpsertedSpec(es, id, name, stamp);
    assert multiset(r) == multiset(u);
    assert Entry(id, name, stamp) in multiset(u);
    if UniqueKeys(es, EntryId) {
      PermutationKeepsUniqueKeys(u, r, EntryId);
    }
    if AllStamped(r) {
      PermutationKeepsStamps(r, u);
    }
    if stamp.Some? && AllStamped(es) {
      PermutationKeepsStamps(u, r);
    }
  }

  /** `createNewConversation`'s lookup: the first entry still named "New Conversation". */
  function FindUnnamed(es: seq<Entry>): Option<nat>
  {
    FirstIndex(es, HasName(NewConversation))
  }

  // ---------------------------------------------------------------------
  // Generated names
  // ---------------------------------------------------------------------

  /** The answer of the naming endpoint: `NameOk(n)` for a 2xx response with `name` `n` (`''` when absent). */
  datatype NameReply = NameOk(name: string) | NameFailed

  /** `/^"(.*)"$/` matches: a leading and a trailing quote with no line terminator between them. */
  predicate Quoted(t: string)
  {
    |t| >= 2 && t[0] == '"' && t[|t| - 1] == '"'
    && forall k :: 1 <= k < |t| - 1 ==> !IsLineTerminator(t[k])
  }

  /** `name.trim().replace(/^"(.*)"$/, '$1')`. */
  function CleanName(name: string): string
  {
    var t := JsTrim(name);
    if Quoted(t) then t[1..|t| - 1] else t
  }

  /** `generateConversationName` of the newer clients. */
  function GeneratedName(reply: NameReply): string
  {
    match reply
    case NameFailed => NewConversation
    case NameOk(n) => CleanName(if n == "" then NewConversation else n)
  }

  /**
   * Cleaning removes surrounding whitespace and exactly one enclosing pair
   * of quotes: quoting the result gives back the trimmed name when it was
   * quoted, and the result is the trimmed name otherwise.
   */
  lemma CleanNameSpec(name: string)
    ensures var t := JsTrim(name);
      (Quoted(t) ==> "\"" + CleanName(name) + "\"" == t)
      && (!Quoted(t) ==> CleanName(name) == t)
      && |CleanName(name)| <= |name|
  {
    var t := JsTrim(name);
    if Quoted(t) {
      Requote(t);
    }
  }

  /** Putting back the quotes that were cut off gives the quoted text. */
  lemma Requote(t: string)
    requires |t| >= 2 && t[0] == '"' && t[|t| - 1] == '"'
    ensures "\"" + t[1..|t| - 1] + "\"" == t
  {
    assert t == [t[0]] + t[1..|t| - 1] + [t[|t| - 1]];
  }

  /** The placeholder survives cleaning, so a failed or empty answer names the conversation "New Conversation". */
  lemma GeneratedNameFallback(reply: NameReply)
    requires reply.NameFailed? || reply.name == ""
    ensures GeneratedName(reply) == NewConversation
  {
    TrimStartIdle(NewConversation, IsJsSpace);
    TrimEndIdle(NewConversation, IsJsSpace);
  }

  // ---------------------------------------------------------------------
  // The oldest client's list: ids may be `null`, no timestamps, no sorting.
  // ---------------------------------------------------------------------

  datatype LegacyEntry = LegacyEntry(id: Option<string>, name: string)

  function LegacyId(e: LegacyEntry): Option<string> { e.id }

  function LegacyHasId(id: Option<string>): LegacyEntry -> bool { (e: LegacyEntry) => e.id == id }

  /** `generateConversationName` of the oldest client: the answer's name or the placeholder, uncleaned. */
  function LegacyGeneratedName(reply: NameReply): (n: string)
    ensures n != ""
    ensures reply.NameOk? && reply.name != "" ==> n == reply.name
  {
    match reply
    case NameFailed => NewConversation
    case NameOk(n) => if n == "" then NewConversation else n
  }

  /** The oldest client's save updater: rename the first entry of that id in place, or append one. */
  function LegacyUpsert(es: seq<LegacyEntry>, id: Option<string>, name: string): seq<LegacyEntry>
  {
    match FirstIndex(es, LegacyHasId(id))
    case Some(i) => es[i := es[i].(name := name)]
    case None => es + [LegacyEntry(id, name)]
  }

  /**
   * The legacy updater keeps the order: a known id keeps its position and
   * changes only its name; an unknown id goes to the end. Distinct ids stay distinct.
   */
  lemma LegacyUpsertSpec(es: seq<LegacyEntry>, id: Option<string>, name: string)
    ensures var r := LegacyUpsert(es, id, name);
      (match FirstIndex(es, LegacyHasId(id))
       case Some(i) => |r| == |es| && r[i] == LegacyEntry(id, name)
                       && forall k :: 0 <= k < |es| && k != i ==> r[k] == es[k]
       case None => r == es + [LegacyEntry(id, name)])
      && (UniqueKeys(es, LegacyId) ==> UniqueKeys(r, LegacyId))
  {
  }

  /** The sidebar rename after a name arrives: every entry of that id gets the name, the rest are untouched. */
  function Rename(es: seq<LegacyEntry>, id: Option<string>, name: string): (r: seq<LegacyEntry>)
    ensures |r| == |es|
    ensures forall k :: 0 <= k < |es| ==> r[k].id == es[k].id
    ensures forall k :: 0 <= k < |es| && es[k].id != id ==> r[k] == es[k]
    ensures forall k :: 0 <= k < |es| && es[k].id == id ==> r[k].name == name
  {
    seq(|es|, k requires 0 <= k < |es| => if es[k].id == id then es[k].(name := name) else es[k])
  }
}
