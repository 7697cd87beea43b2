/** What one `rss(command)` call guarantees, proved about the specification `Rss.Run`
    and the pieces it is made of. */
module RssProperties {
  import opened Wrappers
  import opened Strings
  import opened Queries
  import opened Catalog
  import opened CatalogProperties
  import opened Rss

  /** The three lines `listFeeds` prints for row `k`: its title and its link, each
      indented by two spaces, and a blank line. */
  lemma {:induction false} FeedLinesAt(rows: seq<Feed>, k: nat)
    requires k < |rows|
    ensures 3 * k + 2 < |FeedLines(rows)|
    ensures FeedLines(rows)[3 * k] == "  " + rows[k].title
    ensures FeedLines(rows)[3 * k + 1] == "  " + rows[k].link
    ensures FeedLines(rows)[3 * k + 2] == ""
  {
    var head := ["  " + rows[0].title, "  " + rows[0].link, ""];
    assert FeedLines(rows) == head + FeedLines(rows[1..]);
    if k > 0 {
      FeedLinesAt(rows[1..], k - 1);
      assert rows[1..][k - 1] == rows[k];
      assert 3 * k == 3 * (k - 1) + 3;
    }
  }

  /** `listFeeds` prints three lines per row, in row order: the title, the link and a
      blank line, each of the first two indented by two spaces. */
  lemma {:induction false} FeedLinesShape(rows: seq<Feed>)
    ensures |FeedLines(rows)| == 3 * |rows|
    ensures forall k :: 0 <= k < |rows| ==>
      && FeedLines(rows)[3 * k] == "  " + rows[k].title
      && FeedLines(rows)[3 * k + 1] == "  " + rows[k].link
      && FeedLines(rows)[3 * k + 2] == ""
  {
    if rows != [] {
      FeedLinesShape(rows[1..]);
    }
    forall k | 0 <= k < |rows|
      ensures FeedLines(rows)[3 * k] == "  " + rows[k].title
      ensures FeedLines(rows)[3 * k + 1] == "  " + rows[k].link
      ensures FeedLines(rows)[3 * k + 2] == ""
    {
      FeedLinesAt(rows, k);
    }
  }

  /** `listFeeds` prints nothing when the select throws; otherwise an empty line, then
      title, link and a blank line for every row of the catalog, in row order. */
  lemma ListingShape(s: Store, rejects: (Op, seq<string>) -> bool)
    ensures var lines := Listing(s, rejects);
      && (FeedsTable !in s.tables || rejects(SelectFeeds, []) ==> lines == [])
      && (FeedsTable in s.tables && !rejects(SelectFeeds, []) ==>
            && |lines| == 1 + 3 * |s.feeds| && lines[0] == ""
            && forall k :: 0 <= k < |s.feeds| ==>
                 && lines[3 * k + 1] == "  " + s.feeds[k].title
                 && lines[3 * k + 2] == "  " + s.feeds[k].link
                 && lines[3 * k + 3] == "")
  {
    var lines := Listing(s, rejects);
    if FeedsTable in s.tables && !rejects(SelectFeeds, []) {
      FeedLinesShape(s.feeds);
      assert lines == [""] + FeedLines(s.feeds);
      forall k | 0 <= k < |s.feeds|
        ensures lines[3 * k + 1] == "  " + s.feeds[k].title
        ensures lines[3 * k + 2] == "  " + s.feeds[k].link
        ensures lines[3 * k + 3] == ""
      {
        assert lines[3 * k + 1] == FeedLines(s.feeds)[3 * k];
        assert lines[3 * k + 2] == FeedLines(s.feeds)[3 * k + 1];
        assert lines[3 * k + 3] == FeedLines(s.feeds)[3 * k + 2];
      }
    }
  }

  /** A sub-command creates no table and drops none. */
  lemma DispatchKeepsTables(s: Store, rejects: (Op, seq<string>) -> bool, parseUrl: string -> Option<Doc>,
                            command: string, flags: seq<Flag>)
    ensures Dispatch(s, rejects, parseUrl, command, flags).0.tables == s.tables
  {
    var v := FlagValue(flags, "add");
    if command == "add" && v.Some? && Fetched(parseUrl, v.value).Some? {
      var p := Fetched(parseUrl, v.value).value;
      InsertEffect(s, rejects, p.0, p.1);
    }
  }

  /** A sub-command keeps the store invariant. */
  lemma DispatchPreservesInv(s: Store, rejects: (Op, seq<string>) -> bool, parseUrl: string -> Option<Doc>,
                             command: string, flags: seq<Flag>)
    requires Inv(s)
    ensures Inv(Dispatch(s, rejects, parseUrl, command, flags).0)
  {
    if command == "add" {
      var v := FlagValue(flags, "add");
      if v.Some? && Fetched(parseUrl, v.value).Some? {
        var p := Fetched(parseUrl, v.value).value;
        StepPreservesInv(s, rejects, InsertFeed, [p.0, p.1]);
      }
    } else if command == "remove" {
      StepPreservesInv(s, rejects, DeleteFeed, FlagArgs(FlagValue(flags, "remove")));
    } else if command == "subscribe" {
      StepPreservesInv(s, rejects, SubscribeFeed, FlagArgs(FlagValue(flags, "subscribe")));
    } else if command == "unsubscribe" {
      StepPreservesInv(s, rejects, SubscribeFeed, FlagArgs(FlagValue(flags, "unsubscribe")));
    }
  }

  /** `db.close()` runs exactly when schema-ensure returned normally, whichever
      sub-command runs and whether or not seeding threw; the call rejects with exactly
      the error schema-ensure threw; after a run that closes, both tables exist. */
  lemma RunClosesOnce(s: Store, rejects: (Op, seq<string>) -> bool, parseUrl: string -> Option<Doc>,
                      defaults: seq<DefaultFeed>, command: Option<string>, flags: seq<Flag>)
    ensures var r := Run(s, rejects, parseUrl, defaults, command, flags);
      && (r.closed <==> EnsureSchema(s, rejects).thrown.None?)
      && r.thrown == EnsureSchema(s, rejects).thrown
      && (r.closed ==> FeedsTable in r.store.tables && ArticlesTable in r.store.tables)
  {
    var schema := EnsureSchema(s, rejects);
    SchemaEnsured(s, rejects);
    if schema.thrown.None? {
      var seeded := Seed(schema.store, rejects, parseUrl, defaults);
      SeedEffect(schema.store, rejects, parseUrl, defaults);
      if seeded.thrown.None? {
        if schema.store.feeds == [] {
          SeedFromAppends(schema.store, rejects, parseUrl, defaults);
        }
        DispatchKeepsTables(seeded.store, rejects, parseUrl, SelectCommand(command, flags), flags);
      }
    }
  }

  /** A whole `rss` run keeps row ids increasing and fresh and timestamps in the past. */
  lemma RunPreservesInv(s: Store, rejects: (Op, seq<string>) -> bool, parseUrl: string -> Option<Doc>,
                        defaults: seq<DefaultFeed>, command: Option<string>, flags: seq<Flag>)
    requires Inv(s)
    ensures Inv(Run(s, rejects, parseUrl, defaults, command, flags).store)
  {
    var schema := EnsureSchema(s, rejects);
    EnsureSchemaPreservesInv(s, rejects);
    if schema.thrown.None? {
      var seeded := Seed(schema.store, rejects, parseUrl, defaults);
      SeedPreservesInv(schema.store, rejects, parseUrl, defaults);
      if seeded.thrown.None? {
        DispatchPreservesInv(seeded.store, rejects, parseUrl, SelectCommand(command, flags), flags);
      }
    }
  }

  /** `rss('unsubscribe')` issues `subscribeFeed`: it has the effect of the subscribe
      command with the same link, so it never clears a subscription and stamps every
      matching row with the current time. */
  lemma UnsubscribeCommandSubscribes(s: Store, rejects: (Op, seq<string>) -> bool, parseUrl: string -> Option<Doc>,
                                     flags: seq<Flag>, p: string)
    requires FlagValue(flags, "unsubscribe") == Some(p)
    ensures var t := Dispatch(s, rejects, parseUrl, "unsubscribe", flags).0;
      && t == Step(s, rejects, SubscribeFeed, [p]).store
      && |t.feeds| == |s.feeds|
      && forall i :: 0 <= i < |s.feeds| && s.feeds[i].subscribedAt.Some? ==> t.feeds[i].subscribedAt.Some?
  {
    SubscribeEffect(s, rejects, p);
  }

  /** With no explicit command and no flags, `rss` lists the catalog after seeding. */
  lemma DefaultCommandLists(s: Store, rejects: (Op, seq<string>) -> bool, parseUrl: string -> Option<Doc>,
                            defaults: seq<DefaultFeed>)
    requires EnsureSchema(s, rejects).thrown.None?
    requires Seed(EnsureSchema(s, rejects).store, rejects, parseUrl, defaults).thrown.None?
    ensures var seeded := Seed(EnsureSchema(s, rejects).store, rejects, parseUrl, defaults).store;
      var r := Run(s, rejects, parseUrl, defaults, None, []);
      && r.store == seeded && r.closed
      && r.lines == [""] + FeedLines(seeded.feeds) && |r.lines| == 1 + 3 * |seeded.feeds|
  {
    var seeded := Seed(EnsureSchema(s, rejects).store, rejects, parseUrl, defaults).store;
    SchemaEnsured(s, rejects);
    SeedEffect(EnsureSchema(s, rejects).store, rejects, parseUrl, defaults);
    if EnsureSchema(s, rejects).store.feeds == [] {
      SeedFromAppends(EnsureSchema(s, rejects).store, rejects, parseUrl, defaults);
    }
    ListingShape(seeded, rejects);
  }

  /** `createTablesIfMissing` creates a table only when its probe found no row: with both
      tables present and both probes accepted it sends the two probes and nothing else
      and changes nothing, whatever the engine would say of the creates. */
  lemma SchemaProbesOnly(s: Store, rejects: (Op, seq<string>) -> bool)
    requires FeedsTable in s.tables && ArticlesTable in s.tables
    requires !rejects(HasTable, [FeedsTable]) && !rejects(HasTable, [ArticlesTable])
    ensures EnsureSchema(s, rejects) == Done(s, None)
    ensures SchemaSent(s, rejects) == [Text(HasTable, [FeedsTable]), Text(HasTable, [ArticlesTable])]
  {
  }

  /** After an accepted `feeds` probe, the next text sent is the create of `feeds` exactly
      when that table is missing, and otherwise the `articles` probe. */
  lemma SchemaCreatesFeedsWhenMissing(s: Store, rejects: (Op, seq<string>) -> bool)
    requires !rejects(HasTable, [FeedsTable])
    ensures |SchemaSent(s, rejects)| >= 2 && SchemaSent(s, rejects)[0] == Text(HasTable, [FeedsTable])
    ensures SchemaSent(s, rejects)[1]
         == if FeedsTable in s.tables then Text(HasTable, [ArticlesTable]) else Text(CreateTableFeeds, [])
  {
  }
}
