/** What the catalog operations of commands/rss.js guarantee, proved about the
    specification in module Catalog. */
module CatalogProperties {
  import opened Wrappers
  import opened Strings
  import opened Queries
  import opened Catalog

  predicate IdsIncrease(feeds: seq<Feed>)
  {
    forall i, j :: 0 <= i < j < |feeds| ==> feeds[i].id < feeds[j].id
  }

  // ---------------------------------------------------------------------------------
  // deleteFeed

  /** A row survives `deleteFeed(p)` exactly when it was there and its link does not
      contain `p`; its title plays no part. */
  lemma {:induction false} KeepMembers(feeds: seq<Feed>, p: string)
    ensures |Keep(feeds, p)| <= |feeds|
    ensures forall f :: f in Keep(feeds, p) <==> f in feeds && !Contains(f.link, p)
  {
    if feeds != [] {
      KeepMembers(feeds[1..], p);
      assert feeds == [feeds[0]] + feeds[1..];
    }
  }

  /** `deleteFeed(p)` keeps every row exactly when no link contains `p`: zero matches
      is a no-op, and any match removes something. */
  lemma {:induction false} KeepAllIffNoMatch(feeds: seq<Feed>, p: string)
    ensures Keep(feeds, p) == feeds <==> forall i :: 0 <= i < |feeds| ==> !Contains(feeds[i].link, p)
  {
    if feeds != [] {
      KeepAllIffNoMatch(feeds[1..], p);
      KeepMembers(feeds[1..], p);
      if DeleteMatches(feeds[0], p) {
        assert |Keep(feeds, p)| < |feeds|;
      } else {
        NoMatchTail(feeds, p);
        assert Keep(feeds, p) == feeds <==> Keep(feeds[1..], p) == feeds[1..] by {
          assert feeds == [feeds[0]] + feeds[1..];
        }
      }
    }
  }

  /** When the first link does not match, no link matches exactly when no link of the
      tail matches. */
  lemma NoMatchTail(feeds: seq<Feed>, p: string)
    requires feeds != [] && !Contains(feeds[0].link, p)
    ensures (forall i :: 0 <= i < |feeds| ==> !Contains(feeds[i].link, p))
        <==> (forall i :: 0 <= i < |feeds[1..]| ==> !Contains(feeds[1..][i].link, p))
  {
    forall i | 0 < i < |feeds| ensures feeds[i] == feeds[1..][i - 1] { }
  }

  /** `deleteFeed('')` renders `LIKE '%%'`, which every link matches: it empties the table. */
  lemma {:induction false} KeepEmptyPattern(feeds: seq<Feed>)
    ensures Keep(feeds, "") == []
  {
    if feeds != [] {
      ContainsEmpty(feeds[0].link);
      KeepEmptyPattern(feeds[1..]);
    }
  }

  /** Deleting rows keeps the survivors in their original (increasing id) order. */
  lemma {:induction false} KeepIdsIncrease(feeds: seq<Feed>, p: string)
    requires IdsIncrease(feeds)
    ensures IdsIncrease(Keep(feeds, p))
  {
    if feeds != [] {
      KeepIdsIncrease(feeds[1..], p);
      KeepMembers(feeds[1..], p);
      var rest := Keep(feeds[1..], p);
      forall k | 0 <= k < |rest| ensures feeds[0].id < rest[k].id {
        assert rest[k] in feeds[1..];
      }
    }
  }

  /** `removeFeed(db, p)`: the query succeeds exactly when `feeds` exists and the engine
      accepts the text; then the rows whose link contains `p` are gone and nothing else
      changes but the clock; on failure nothing changes. */
  lemma RemoveEffect(s: Store, rejects: (Op, seq<string>) -> bool, p: string)
    ensures var o := Step(s, rejects, DeleteFeed, [p]);
      && (o.result.Ok? <==> FeedsTable in s.tables && !rejects(DeleteFeed, [p]))
      && (o.result.Ok? ==> o.store == s.(feeds := Keep(s.feeds, p), clock := s.clock + 1))
      && (o.result.Err? ==> o.store == s)
  {
  }

  // ---------------------------------------------------------------------------------
  // subscribeFeed / unsubscribeFeed

  /** `subscribeFeed(p)`: when it succeeds, every row whose link or title contains `p`
      gets `subscribed_at` = now, every other row is untouched, and ids, titles, links,
      creation times and the row count stay as they were. On failure nothing changes. */
  lemma SubscribeEffect(s: Store, rejects: (Op, seq<string>) -> bool, p: string)
    ensures var o := Step(s, rejects, SubscribeFeed, [p]);
      && (o.result.Ok? <==> FeedsTable in s.tables && !rejects(SubscribeFeed, [p]))
      && (o.result.Err? ==> o.store == s)
      && (o.result.Ok? ==>
            && o.store.tables == s.tables && o.store.nextId == s.nextId && o.store.clock == s.clock + 1
            && |o.store.feeds| == |s.feeds|
            && forall i :: 0 <= i < |s.feeds| ==>
                 && o.store.feeds[i].(subscribedAt := None) == s.feeds[i].(subscribedAt := None)
                 && o.store.feeds[i].subscribedAt
                    == if Contains(s.feeds[i].link, p) || Contains(s.feeds[i].title, p)
                       then Some(s.clock) else s.feeds[i].subscribedAt)
  {
  }

  /** The registered but unused `unsubscribeFeed(p)`: on success it clears
      `subscribed_at` on exactly the matching rows. */
  lemma UnsubscribeQueryEffect(s: Store, rejects: (Op, seq<string>) -> bool, p: string)
    ensures var o := Step(s, rejects, UnsubscribeFeed, [p]);
      && (o.result.Ok? <==> FeedsTable in s.tables && !rejects(UnsubscribeFeed, [p]))
      && (o.result.Ok? ==>
            && |o.store.feeds| == |s.feeds|
            && forall i :: 0 <= i < |s.feeds| ==>
                 && o.store.feeds[i].(subscribedAt := None) == s.feeds[i].(subscribedAt := None)
                 && o.store.feeds[i].subscribedAt
                    == if Contains(s.feeds[i].link, p) || Contains(s.feeds[i].title, p)
                       then None else s.feeds[i].subscribedAt)
  {
  }

  // ---------------------------------------------------------------------------------
  // insertFeed

  /** `insertFeed(t, l)`: succeeds exactly when `feeds` exists and the text is accepted;
      then one unsubscribed row with a fresh id is appended. */
  lemma InsertEffect(s: Store, rejects: (Op, seq<string>) -> bool, t: string, l: string)
    ensures var o := Step(s, rejects, InsertFeed, [t, l]);
      && (o.result.Ok? <==> FeedsTable in s.tables && InsertAccepted(rejects, (t, l)))
      && (o.result.Ok? ==> o.store == Store(s.tables, s.feeds + [Feed(s.nextId, t, l, None, s.clock)],
                                            s.nextId + 1, s.clock + 1))
      && (o.result.Err? ==> o.store == s)
  {
  }

  /** `addFeed(db, link)` appends at most one row: the fetched title and link, trimmed,
      under a fresh id and unsubscribed; when the fetch fails, a field is missing or the
      insert fails, the catalog is unchanged. */
  lemma AddFeedEffect(s: Store, rejects: (Op, seq<string>) -> bool, fetch: string -> Option<Doc>, link: Option<string>)
    ensures var r := AddLink(s, rejects, fetch, link);
      var ok := && link.Some? && fetch(link.value).Some?
                && fetch(link.value).value.title != "" && fetch(link.value).value.link != ""
                && FeedsTable in s.tables
                && InsertAccepted(rejects, (Trim(fetch(link.value).value.title), Trim(fetch(link.value).value.link)));
      && (ok ==> r == Store(s.tables,
                            s.feeds + [Feed(s.nextId, Trim(fetch(link.value).value.title),
                                            Trim(fetch(link.value).value.link), None, s.clock)],
                            s.nextId + 1, s.clock + 1))
      && (!ok ==> r == s)
  {
    if link.Some? && Fetched(fetch, link.value).Some? {
      var p := Fetched(fetch, link.value).value;
      InsertEffect(s, rejects, p.0, p.1);
    }
  }

  // ---------------------------------------------------------------------------------
  // The store invariant

  /** Every query keeps ids increasing and fresh, and timestamps in the past. */
  lemma StepPreservesInv(s: Store, rejects: (Op, seq<string>) -> bool, op: Op, args: seq<string>)
    requires Inv(s)
    ensures Inv(Step(s, rejects, op, args).store)
  {
    var o := Step(s, rejects, op, args);
    if o.result.Ok? && op == DeleteFeed {
      var p := Arg(args, 0);
      KeepIdsIncrease(s.feeds, p);
      KeepMembers(s.feeds, p);
      forall i | 0 <= i < |o.store.feeds|
        ensures o.store.feeds[i].id < s.nextId && o.store.feeds[i].createdAt < o.store.clock
        ensures o.store.feeds[i].subscribedAt.Some? ==> o.store.feeds[i].subscribedAt.value < o.store.clock
      {
        assert o.store.feeds[i] in s.feeds;
      }
    }
  }

  // ---------------------------------------------------------------------------------
  // createTablesIfMissing

  /** Schema-ensure never touches feed rows, ids or the clock and creates no table but
      `feeds` and `articles`; when it returns normally both tables exist. */
  lemma SchemaEnsured(s: Store, rejects: (Op, seq<string>) -> bool)
    ensures var d := EnsureSchema(s, rejects);
      && d.store == s.(tables := d.store.tables)
      && s.tables <= d.store.tables <= s.tables + {FeedsTable, ArticlesTable}
      && (d.thrown.None? ==> d.store.tables == s.tables + {FeedsTable, ArticlesTable})
  {
  }

  /** Once schema-ensure has returned normally, running it again succeeds and changes
      nothing: both probes find their table, so nothing is created. */
  lemma EnsureSchemaIdempotent(s: Store, rejects: (Op, seq<string>) -> bool)
    requires EnsureSchema(s, rejects).thrown.None?
    ensures EnsureSchema(EnsureSchema(s, rejects).store, rejects) == Done(EnsureSchema(s, rejects).store, None)
  {
    var t := EnsureSchema(s, rejects).store;
    SchemaEnsured(s, rejects);
    assert !rejects(HasTable, [FeedsTable]);
    assert !rejects(HasTable, [ArticlesTable]);
  }

  /** Schema-ensure keeps the store invariant. */
  lemma EnsureSchemaPreservesInv(s: Store, rejects: (Op, seq<string>) -> bool)
    requires Inv(s)
    ensures Inv(EnsureSchema(s, rejects).store)
  {
    SchemaEnsured(s, rejects);
  }

  // ---------------------------------------------------------------------------------
  // seedEmptyFeedsTable

  lemma NewRowsLength(pairs: seq<(string, string)>, id: nat, clock: Time)
    ensures |NewRows(pairs, id, clock)| == |pairs|
  {
  }

  /** One iteration of the seeding loop: the entry is inserted exactly when it is
      admitted, and then as the next fresh row. */
  lemma TryInsertEffect(s: Store, rejects: (Op, seq<string>) -> bool, fetch: string -> Option<Doc>, e: DefaultFeed)
    requires FeedsTable in s.tables
    ensures var a := AdmitOne(rejects, fetch, e);
      TryInsert(s, rejects, fetch, e.link)
        == Store(s.tables, s.feeds + NewRows(a, s.nextId, s.clock), s.nextId + |a|, s.clock + |a|)
  {
    match Fetched(fetch, e.link)
    case None =>
    case Some(p) =>
      InsertEffect(s, rejects, p.0, p.1);
  }

  /** Fresh rows for two runs of pairs are the rows for the first run followed by the
      rows numbered and stamped after them. */
  lemma {:induction false} NewRowsAppend(a: seq<(string, string)>, b: seq<(string, string)>, id: nat, clock: Time)
    ensures NewRows(a + b, id, clock) == NewRows(a, id, clock) + NewRows(b, id + |a|, clock + |a|)
  {
    if a != [] {
      assert (a + b)[0] == a[0];
      assert (a + b)[1..] == a[1..] + b;
      NewRowsAppend(a[1..], b, id + 1, clock + 1);
    } else {
      assert a + b == b;
    }
  }

  /** The seeding loop after its first iteration. */
  lemma SeedFromFirst(s: Store, rejects: (Op, seq<string>) -> bool, fetch: string -> Option<Doc>, entries: seq<DefaultFeed>)
    requires FeedsTable in s.tables && entries != []
    ensures var a := AdmitOne(rejects, fetch, entries[0]);
      SeedFrom(s, rejects, fetch, entries)
        == SeedFrom(Store(s.tables, s.feeds + NewRows(a, s.nextId, s.clock), s.nextId + |a|, s.clock + |a|),
                    rejects, fetch, entries[1..])
  {
    TryInsertEffect(s, rejects, fetch, entries[0]);
  }

  /** Appending the rows of two runs one after the other is appending the rows of the
      joined run. */
  lemma AppendRuns(s: Store, head: seq<(string, string)>, rest: seq<(string, string)>)
    ensures var s1 := Store(s.tables, s.feeds + NewRows(head, s.nextId, s.clock), s.nextId + |head|, s.clock + |head|);
      Store(s.tables, s1.feeds + NewRows(rest, s1.nextId, s1.clock), s1.nextId + |rest|, s1.clock + |rest|)
        == Store(s.tables, s.feeds + NewRows(head + rest, s.nextId, s.clock), s.nextId + |head + rest|, s.clock + |head + rest|)
  {
    NewRowsAppend(head, rest, s.nextId, s.clock);
    assert (s.feeds + NewRows(head, s.nextId, s.clock)) + NewRows(rest, s.nextId + |head|, s.clock + |head|)
        == s.feeds + (NewRows(head, s.nextId, s.clock) + NewRows(rest, s.nextId + |head|, s.clock + |head|));
  }

  /** Seeding from `entries` appends one fresh unsubscribed row per admitted entry, in
      list order, and nothing else: failing entries are skipped, the rest still run. */
  lemma {:induction false} SeedFromAppends(s: Store, rejects: (Op, seq<string>) -> bool, fetch: string -> Option<Doc>,
                                          entries: seq<DefaultFeed>)
    requires FeedsTable in s.tables
    ensures var a := Admitted(rejects, fetch, entries);
      SeedFrom(s, rejects, fetch, entries)
        == Store(s.tables, s.feeds + NewRows(a, s.nextId, s.clock), s.nextId + |a|, s.clock + |a|)
    decreases |entries|
  {
    if entries != [] {
      var head := AdmitOne(rejects, fetch, entries[0]);
      var rest := Admitted(rejects, fetch, entries[1..]);
      var s1 := Store(s.tables, s.feeds + NewRows(head, s.nextId, s.clock), s.nextId + |head|, s.clock + |head|);
      SeedFromFirst(s, rejects, fetch, entries);
      SeedFromAppends(s1, rejects, fetch, entries[1..]);
      AppendRuns(s, head, rest);
    }
  }

  /** `seedEmptyFeedsTable` leaves a non-empty catalog unchanged; on an empty one whose
      select succeeds it inserts exactly the admitted entries, trimmed, in list order. */
  lemma SeedEffect(s: Store, rejects: (Op, seq<string>) -> bool, fetch: string -> Option<Doc>, defaults: seq<DefaultFeed>)
    ensures var d := Seed(s, rejects, fetch, defaults);
      && (s.feeds != [] ==> d.store == s)
      && (d.thrown.Some? ==> d.store == s)
      && (d.thrown.None? <==> FeedsTable in s.tables && !rejects(SelectFeeds, []))
      && (s.feeds == [] && d.thrown.None? ==>
            var a := Admitted(rejects, fetch, defaults);
            d.store == Store(s.tables, NewRows(a, s.nextId, s.clock), s.nextId + |a|, s.clock + |a|))
  {
    var d := Seed(s, rejects, fetch, defaults);
    if s.feeds == [] && d.thrown.None? {
      SeedFromAppends(s, rejects, fetch, defaults);
    }
  }

  /** Seeding is one-shot once it has left a row behind: a later seeding, whatever its
      default list and fetch results, finds the table non-empty and inserts nothing. */
  lemma SeedIdempotent(s: Store, rejects: (Op, seq<string>) -> bool, fetch: string -> Option<Doc>, defaults: seq<DefaultFeed>,
                       fetch2: string -> Option<Doc>, defaults2: seq<DefaultFeed>)
    requires Seed(s, rejects, fetch, defaults).thrown.None?
    requires Seed(s, rejects, fetch, defaults).store.feeds != []
    ensures var t := Seed(s, rejects, fetch, defaults).store;
      Seed(t, rejects, fetch2, defaults2) == Done(t, None)
  {
    SeedEffect(s, rejects, fetch, defaults);
    var t := Seed(s, rejects, fetch, defaults).store;
    SeedEffect(t, rejects, fetch2, defaults2);
  }

  /** A seeding that leaves the table empty (every entry failed) leaves the store as it
      was, so a later seeding starts afresh and appends what its own fetches admit. */
  lemma SeedRetriesWhileEmpty(s: Store, rejects: (Op, seq<string>) -> bool, fetch: string -> Option<Doc>, defaults: seq<DefaultFeed>,
                              fetch2: string -> Option<Doc>, defaults2: seq<DefaultFeed>)
    requires Seed(s, rejects, fetch, defaults).thrown.None?
    requires Seed(s, rejects, fetch, defaults).store.feeds == []
    ensures var t := Seed(s, rejects, fetch, defaults).store;
      && t == s
      && Seed(t, rejects, fetch2, defaults2).thrown.None?
      && Seed(t, rejects, fetch2, defaults2).store.feeds == NewRows(Admitted(rejects, fetch2, defaults2), s.nextId, s.clock)
  {
    SeedEffect(s, rejects, fetch, defaults);
    var a := Admitted(rejects, fetch, defaults);
    if s.feeds == [] {
      NewRowsLength(a, s.nextId, s.clock);
      assert a == [];
    }
    SeedEffect(s, rejects, fetch2, defaults2);
  }

  /** Every row that seeding appends lies beyond the existing ones, so ids keep increasing. */
  lemma {:induction false} NewRowsBounds(pairs: seq<(string, string)>, id: nat, clock: Time)
    ensures var r := NewRows(pairs, id, clock);
      && IdsIncrease(r)
      && forall i :: 0 <= i < |r| ==>
           && id <= r[i].id < id + |pairs| && r[i].createdAt < clock + |pairs| && r[i].subscribedAt.None?
  {
    if pairs != [] {
      NewRowsBounds(pairs[1..], id + 1, clock + 1);
    }
  }

  /** Seeding keeps the store invariant. */
  lemma SeedPreservesInv(s: Store, rejects: (Op, seq<string>) -> bool, fetch: string -> Option<Doc>, defaults: seq<DefaultFeed>)
    requires Inv(s)
    ensures Inv(Seed(s, rejects, fetch, defaults).store)
  {
    var d := Seed(s, rejects, fetch, defaults);
    SeedEffect(s, rejects, fetch, defaults);
    if s.feeds == [] && d.thrown.None? {
      var a := Admitted(rejects, fetch, defaults);
      NewRowsBounds(a, s.nextId, s.clock);
    }
  }
}
