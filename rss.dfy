/** The `rss` command of commands/rss.js over an in-memory database: a `Database` object
    whose `Exec` runs one named query in place, the helpers that issue queries through it,
    and the dispatcher that ensures the schema, seeds, runs one sub-command and closes. The
    feed fetcher `parser.parseURL` is a parameter `parseUrl`; the bundled default list
    `rss_feeds.json` is a parameter `defaults`; the parsed command-line flags are a
    parameter `flags`. */
module Rss {
  import opened Wrappers
  import opened Strings
  import opened Queries
  import opened Catalog

  /** The database handle `db`: the catalog's state, changed in place by `Exec`, and a
      count of the `close` calls made on it. */
  class Database {
    var tables: set<string>
    var feeds: seq<Feed>
    var nextId: nat
    var clock: Time
    var closeCount: nat
    /** The query texts handed to the engine, in order. */
    var sent: seq<string>
    /** The engine's verdict on each query it is given (true: it throws). */
    const rejects: (Op, seq<string>) -> bool

    function State(): Store
      reads this
    {
      Store(tables, feeds, nextId, clock)
    }

    /** `new Database(DB_PATH, QUERIES)`: opens the file holding `persisted`. */
    constructor (persisted: Store, rejects: (Op, seq<string>) -> bool)
      ensures State() == persisted && this.rejects == rejects && closeCount == 0 && sent == []
    {
      tables, feeds, nextId, clock := persisted.tables, persisted.feeds, persisted.nextId, persisted.clock;
      this.rejects := rejects;
      closeCount := 0;
      sent := [];
    }

    /** `db.exec(name, args)`: runs the query registered under `name` and returns its
        first result set, or the error it throws. */
    method Exec(name: string, args: seq<string>) returns (r: Result<ResultSet, ExecError>)
      modifies this
      ensures var o := Catalog.Exec(old(State()), rejects, name, args);
        State() == o.store && r == o.result
      ensures r.Err? ==> State() == old(State())
      ensures sent == old(sent) + Sent(name, args)
      ensures closeCount == old(closeCount)
    {
      var o := Catalog.Exec(State(), rejects, name, args);
      sent := sent + Sent(name, args);
      tables, feeds, nextId, clock := o.store.tables, o.store.feeds, o.store.nextId, o.store.clock;
      r := o.result;
    }

    /** `db.exec(name, args)` with the name operation `op` is registered under. */
    method ExecOp(op: Op, args: seq<string>) returns (r: Result<ResultSet, ExecError>)
      modifies this
      ensures var o := Step(old(State()), rejects, op, args);
        State() == o.store && r == o.result
      ensures sent == old(sent) + [Text(op, args)]
      ensures closeCount == old(closeCount)
    {
      LookupName(Name(op), op);
      r := Exec(Name(op), args);
    }

    /** `db.close()`. */
    method Close()
      modifies this`closeCount
      ensures closeCount == old(closeCount) + 1
    {
      closeCount := closeCount + 1;
    }
  }

  /** The text `db.exec(name, args)` hands to the engine: none for an unregistered name. */
  function Sent(name: string, args: seq<string>): seq<string>
  {
    match QueryText(name, args)
    case None => []
    case Some(q) => [q]
  }

  // ---------------------------------------------------------------------------------
  // Command-line flags

  /** One entry of the parsed flags object, in key order. */
  datatype Flag = Flag(key: string, value: string)

  /** `cli.flags[key]`: the value of the first entry with that key, absent (undefined)
      when there is none. */
  function FlagValue(flags: seq<Flag>, key: string): (r: Option<string>)
    ensures r.None? <==> forall i :: 0 <= i < |flags| ==> flags[i].key != key
    ensures r.Some? ==> exists i :: 0 <= i < |flags| && flags[i] == Flag(key, r.value)
  {
    if flags == [] then None
    else if flags[0].key == key then Some(flags[0].value)
    else
      var r := FlagValue(flags[1..], key);
      assert forall i :: 1 <= i < |flags| ==> flags[i] == flags[1..][i - 1];
      r
  }

  /** The arguments a wrapper passes as `[link]`: an absent flag is passed as `undefined`,
      which the template renders as the text "undefined", as an absent argument does. */
  function FlagArgs(value: Option<string>): (r: seq<string>)
    ensures Arg(r, 0) == if value.Some? then value.value else "undefined"
  {
    if value.Some? then [value.value] else []
  }

  /** `parseCommand(flags, cmdDefault)`: the default when no flag was given, else the
      first flag's key. */
  function ParseCommand(flags: seq<Flag>, cmdDefault: string): (r: string)
    ensures flags == [] ==> r == cmdDefault
    ensures flags != [] ==> r == flags[0].key && FlagValue(flags, r) == Some(flags[0].value)
  {
    if flags == [] then cmdDefault else flags[0].key
  }

  /** `command || parseCommand(cli.flags, 'list')`: an absent or empty explicit command
      falls through to the flags. */
  function SelectCommand(command: Option<string>, flags: seq<Flag>): (r: string)
    ensures command.Some? && command.value != "" ==> r == command.value
    ensures (command.None? || command.value == "") && flags == [] ==> r == "list"
    ensures (command.None? || command.value == "") && flags != [] ==> r == flags[0].key
  {
    if command.Some? && command.value != "" then command.value else ParseCommand(flags, "list")
  }

  // ---------------------------------------------------------------------------------
  // What one run prints and leaves behind

  /** The console lines `listFeeds` prints for a result set of rows (colours dropped). */
  function FeedLines(rows: seq<Feed>): seq<string>
  {
    if rows == [] then [] else ["  " + rows[0].title, "  " + rows[0].link, ""] + FeedLines(rows[1..])
  }

  /** The feed rows of a result set; other result sets have none. */
  function Rows(rs: ResultSet): seq<Feed>
  {
    if rs.FeedRows? then rs.feeds else []
  }

  /** What `listFeeds` prints: nothing when the select throws, else an empty line and
      three lines per row. */
  function Listing(s: Store, rejects: (Op, seq<string>) -> bool): seq<string>
  {
    var select := Step(s, rejects, SelectFeeds, []);
    if select.result.Err? then [] else [""] + FeedLines(Rows(select.result.value))
  }

  // ---------------------------------------------------------------------------------
  // The texts each helper hands to the engine, in order

  /** What `createTablesIfMissing` sends: the `feeds` probe, the create it asks for when
      it found no row, then the same for `articles`, stopping at the first failure. */
  function SchemaSent(s: Store, rejects: (Op, seq<string>) -> bool): seq<string>
  {
    var probeFeeds := Step(s, rejects, HasTable, [FeedsTable]);
    [Text(HasTable, [FeedsTable])] +
    (if probeFeeds.result.Err? then []
     else
       var createFeeds := Length(probeFeeds.result.value) == 0;
       var feeds := if createFeeds then Step(probeFeeds.store, rejects, CreateTableFeeds, []) else probeFeeds;
       (if createFeeds then [Text(CreateTableFeeds, [])] else []) +
       (if feeds.result.Err? then []
        else
          var probeArticles := Step(feeds.store, rejects, HasTable, [ArticlesTable]);
          [Text(HasTable, [ArticlesTable])] +
          (if probeArticles.result.Err? || Length(probeArticles.result.value) != 0 then []
           else [Text(CreateTableArticles, [])])))
  }

  lemma AppendAssoc<T>(a: seq<T>, b: seq<T>, c: seq<T>)
    ensures a + b + c == a + (b + c)
  {
  }

  /** What fetching `url` and inserting it sends: the `insertFeed` text when the fetch
      yields a title and a link, else nothing. */
  function InsertSent(fetch: string -> Option<Doc>, url: string): seq<string>
  {
    match Fetched(fetch, url)
    case None => []
    case Some(p) => [Text(InsertFeed, [p.0, p.1])]
  }

  /** What the seeding loop sends for the remaining entries, in list order. */
  function SeedFromSent(fetch: string -> Option<Doc>, entries: seq<DefaultFeed>): seq<string>
  {
    if entries == [] then [] else InsertSent(fetch, entries[0].link) + SeedFromSent(fetch, entries[1..])
  }

  /** What `seedEmptyFeedsTable` sends: the select, then the loop's inserts when the
      select found no rows. */
  function SeedSent(s: Store, rejects: (Op, seq<string>) -> bool, fetch: string -> Option<Doc>,
                    defaults: seq<DefaultFeed>): seq<string>
  {
    var select := Step(s, rejects, SelectFeeds, []);
    [Text(SelectFeeds, [])] +
    (if select.result.Err? || Length(select.result.value) != 0 then [] else SeedFromSent(fetch, defaults))
  }

  /** What `addFeed` sends: nothing for an absent link, else what inserting it sends. */
  function AddSent(fetch: string -> Option<Doc>, link: Option<string>): seq<string>
  {
    if link.None? then [] else InsertSent(fetch, link.value)
  }

  /** What a sub-command sends. */
  function DispatchSent(parseUrl: string -> Option<Doc>, command: string, flags: seq<Flag>): seq<string>
  {
    if command == "list" then [Text(SelectFeeds, [])]
    else if command == "add" then AddSent(parseUrl, FlagValue(flags, "add"))
    else if command == "remove" then [Text(DeleteFeed, FlagArgs(FlagValue(flags, "remove")))]
    else if command == "subscribe" then [Text(SubscribeFeed, FlagArgs(FlagValue(flags, "subscribe")))]
    else if command == "unsubscribe" then [Text(SubscribeFeed, FlagArgs(FlagValue(flags, "unsubscribe")))]
    else []
  }

  /** What one `rss(command)` call sends: schema-ensure's texts, then seeding's when it
      returned, then the sub-command's when seeding returned. */
  function RunSent(s: Store, rejects: (Op, seq<string>) -> bool, parseUrl: string -> Option<Doc>,
                   defaults: seq<DefaultFeed>, command: Option<string>, flags: seq<Flag>): seq<string>
  {
    var schema := EnsureSchema(s, rejects);
    SchemaSent(s, rejects) +
    (if schema.thrown.Some? then []
     else
       var seeded := Seed(schema.store, rejects, parseUrl, defaults);
       SeedSent(schema.store, rejects, parseUrl, defaults) +
       (if seeded.thrown.Some? then [] else DispatchSent(parseUrl, SelectCommand(command, flags), flags)))
  }

  /** The sub-command run inside the `try` of `rss`: the store it leaves and what it
      prints. Every sub-command catches its own failures; an unknown command does nothing. */
  function Dispatch(s: Store, rejects: (Op, seq<string>) -> bool, parseUrl: string -> Option<Doc>,
                    command: string, flags: seq<Flag>): (Store, seq<string>)
  {
    if command == "list" then (s, Listing(s, rejects))
    else if command == "add" then (AddLink(s, rejects, parseUrl, FlagValue(flags, "add")), [])
    else if command == "remove" then (Step(s, rejects, DeleteFeed, FlagArgs(FlagValue(flags, "remove"))).store, [])
    else if command == "subscribe" then (Step(s, rejects, SubscribeFeed, FlagArgs(FlagValue(flags, "subscribe"))).store, [])
    else if command == "unsubscribe" then (Step(s, rejects, SubscribeFeed, FlagArgs(FlagValue(flags, "unsubscribe"))).store, [])
    else (s, [])
  }

  /** The outcome of one `rss(command)` call: the store left behind, the error the call
      rejects with, whether `db.close()` ran, and the lines printed. */
  datatype Session = Session(store: Store, thrown: Option<ExecError>, closed: bool, lines: seq<string>)

  /** `rss(command)`: schema-ensure outside the `try` (its failure escapes, before the
      close); then, inside it, seeding (its failure skips the sub-command and is caught)
      and the sub-command; then the `finally` close. */
  function Run(s: Store, rejects: (Op, seq<string>) -> bool, parseUrl: string -> Option<Doc>,
               defaults: seq<DefaultFeed>, command: Option<string>, flags: seq<Flag>): Session
  {
    var schema := EnsureSchema(s, rejects);
    if schema.thrown.Some? then Session(schema.store, schema.thrown, false, [])
    else
      var seeded := Seed(schema.store, rejects, parseUrl, defaults);
      if seeded.thrown.Some? then Session(seeded.store, None, true, [])
      else
        var done := Dispatch(seeded.store, rejects, parseUrl, SelectCommand(command, flags), flags);
        Session(done.0, None, true, done.1)
  }

  // ---------------------------------------------------------------------------------
  // The helpers, issuing their queries through `db`

  /** `createTablesIfMissing(db)`. */
  method CreateTablesIfMissing(db: Database) returns (thrown: Option<ExecError>)
    modifies db
    ensures var d := EnsureSchema(old(db.State()), db.rejects);
      db.State() == d.store && thrown == d.thrown
    ensures db.sent == old(db.sent) + SchemaSent(old(db.State()), db.rejects)
    ensures db.closeCount == old(db.closeCount)
  {
    var feedsProbe := db.ExecOp(HasTable, [FeedsTable]);
    if feedsProbe.Err? {
      return Some(feedsProbe.error);
    }
    if Length(feedsProbe.value) == 0 {
      var created := db.ExecOp(CreateTableFeeds, []);
      if created.Err? {
        return Some(created.error);
      }
    }
    var articlesProbe := db.ExecOp(HasTable, [ArticlesTable]);
    if articlesProbe.Err? {
      return Some(articlesProbe.error);
    }
    if Length(articlesProbe.value) == 0 {
      var created := db.ExecOp(CreateTableArticles, []);
      if created.Err? {
        return Some(created.error);
      }
    }
    return None;
  }

  /** One `parseURL` followed, when the feed has a title and a link, by the `insertFeed`
      of the trimmed pair; every failure is caught. */
  method InsertFetched(db: Database, parseUrl: string -> Option<Doc>, url: string)
    modifies db
    ensures db.State() == TryInsert(old(db.State()), db.rejects, parseUrl, url)
    ensures db.sent == old(db.sent) + InsertSent(parseUrl, url)
    ensures db.closeCount == old(db.closeCount)
  {
    var feed := parseUrl(url);
    if feed.Some? && feed.value.title != "" && feed.value.link != "" {
      var _ := db.ExecOp(InsertFeed, [Trim(feed.value.title), Trim(feed.value.link)]);
    }
  }

  /** `seedEmptyFeedsTable(db)`: when the select finds no rows, tries every default entry
      in order. */
  method SeedEmptyFeedsTable(db: Database, parseUrl: string -> Option<Doc>, defaults: seq<DefaultFeed>)
    returns (thrown: Option<ExecError>)
    modifies db
    ensures var d := Seed(old(db.State()), db.rejects, parseUrl, defaults);
      db.State() == d.store && thrown == d.thrown
    ensures db.sent == old(db.sent) + SeedSent(old(db.State()), db.rejects, parseUrl, defaults)
    ensures db.closeCount == old(db.closeCount)
  {
    ghost var sent0 := db.sent;
    var feedsSelect := db.ExecOp(SelectFeeds, []);
    if feedsSelect.Err? {
      return Some(feedsSelect.error);
    }
    if Length(feedsSelect.value) == 0 {
      ghost var selected := db.sent;
      AppendAssoc(sent0, [Text(SelectFeeds, [])], SeedFromSent(parseUrl, defaults));
      var i := 0;
      while i < |defaults|
        invariant 0 <= i <= |defaults|
        invariant SeedFrom(db.State(), db.rejects, parseUrl, defaults[i..])
               == SeedFrom(old(db.State()), db.rejects, parseUrl, defaults)
        invariant db.sent + SeedFromSent(parseUrl, defaults[i..]) == selected + SeedFromSent(parseUrl, defaults)
        invariant db.closeCount == old(db.closeCount)
      {
        assert defaults[i..][1..] == defaults[i + 1..];
        assert SeedFromSent(parseUrl, defaults[i..])
            == InsertSent(parseUrl, defaults[i].link) + SeedFromSent(parseUrl, defaults[i + 1..]);
        ghost var before := db.sent;
        InsertFetched(db, parseUrl, defaults[i].link);
        AppendAssoc(before, InsertSent(parseUrl, defaults[i].link), SeedFromSent(parseUrl, defaults[i + 1..]));
        i := i + 1;
      }
      assert defaults[i..] == [];
    }
    return None;
  }

  /** `listFeeds(db)`: returns the lines it prints. */
  method ListFeeds(db: Database) returns (lines: seq<string>)
    modifies db
    ensures db.State() == old(db.State())
    ensures lines == Listing(old(db.State()), db.rejects)
    ensures db.sent == old(db.sent) + [Text(SelectFeeds, [])]
    ensures db.closeCount == old(db.closeCount)
  {
    var feedsSelect := db.ExecOp(SelectFeeds, []);
    if feedsSelect.Err? {
      return [];
    }
    var rows := Rows(feedsSelect.value);
    lines := [""];
    var i := 0;
    while i < |rows|
      invariant 0 <= i <= |rows|
      invariant lines + FeedLines(rows[i..]) == [""] + FeedLines(rows)
    {
      assert rows[i..][1..] == rows[i + 1..];
      lines := lines + ["  " + rows[i].title, "  " + rows[i].link, ""];
      i := i + 1;
    }
    assert rows[i..] == [];
  }

  /** `addFeed(db, link)`: an absent link makes `parseURL` throw, which is caught. */
  method AddFeed(db: Database, parseUrl: string -> Option<Doc>, link: Option<string>)
    modifies db
    ensures db.State() == AddLink(old(db.State()), db.rejects, parseUrl, link)
    ensures db.sent == old(db.sent) + AddSent(parseUrl, link)
    ensures db.closeCount == old(db.closeCount)
  {
    if link.Some? {
      InsertFetched(db, parseUrl, link.value);
    }
  }

  /** `removeFeed(db, link)`. */
  method RemoveFeed(db: Database, link: Option<string>)
    modifies db
    ensures db.State() == Step(old(db.State()), db.rejects, DeleteFeed, FlagArgs(link)).store
    ensures db.sent == old(db.sent) + [Text(DeleteFeed, FlagArgs(link))]
    ensures db.closeCount == old(db.closeCount)
  {
    var _ := db.ExecOp(DeleteFeed, FlagArgs(link));
  }

  /** `subscribeToFeed(db, link)`. */
  method SubscribeToFeed(db: Database, link: Option<string>)
    modifies db
    ensures db.State() == Step(old(db.State()), db.rejects, SubscribeFeed, FlagArgs(link)).store
    ensures db.sent == old(db.sent) + [Text(SubscribeFeed, FlagArgs(link))]
    ensures db.closeCount == old(db.closeCount)
  {
    var _ := db.ExecOp(SubscribeFeed, FlagArgs(link));
  }

  /** `unsubscribeToFeed(db, link)`: issues the `subscribeFeed` query, as written. */
  method UnsubscribeToFeed(db: Database, link: Option<string>)
    modifies db
    ensures db.State() == Step(old(db.State()), db.rejects, SubscribeFeed, FlagArgs(link)).store
    ensures db.sent == old(db.sent) + [Text(SubscribeFeed, FlagArgs(link))]
    ensures db.closeCount == old(db.closeCount)
  {
    var _ := db.ExecOp(SubscribeFeed, FlagArgs(link));
  }

  /** `rss(command)` on an open handle: returns the error it rejects with and the lines it
      prints; `db.close()` runs once unless schema-ensure threw. */
  method Rss(db: Database, parseUrl: string -> Option<Doc>, defaults: seq<DefaultFeed>,
             command: Option<string>, flags: seq<Flag>)
    returns (thrown: Option<ExecError>, lines: seq<string>)
    modifies db
    ensures var r := Run(old(db.State()), db.rejects, parseUrl, defaults, command, flags);
      && db.State() == r.store && thrown == r.thrown && lines == r.lines
      && db.closeCount == old(db.closeCount) + (if r.closed then 1 else 0)
    ensures db.sent == old(db.sent) + RunSent(old(db.State()), db.rejects, parseUrl, defaults, command, flags)
  {
    lines := [];
    ghost var s0, sent0 := db.State(), db.sent;
    thrown := CreateTablesIfMissing(db);
    if thrown.Some? {
      return;
    }
    ghost var s1, sent1 := db.State(), db.sent;
    var cmd := SelectCommand(command, flags);
    var seedThrown := SeedEmptyFeedsTable(db, parseUrl, defaults);
    ghost var sent2 := db.sent;
    ghost var tail: seq<string> := [];
    if seedThrown.None? {
      if cmd == "list" {
        lines := ListFeeds(db);
      } else if cmd == "add" {
        AddFeed(db, parseUrl, FlagValue(flags, "add"));
      } else if cmd == "remove" {
        RemoveFeed(db, FlagValue(flags, "remove"));
      } else if cmd == "subscribe" {
        SubscribeToFeed(db, FlagValue(flags, "subscribe"));
      } else if cmd == "unsubscribe" {
        UnsubscribeToFeed(db, FlagValue(flags, "unsubscribe"));
      }
      tail := DispatchSent(parseUrl, cmd, flags);
    }
    assert db.sent == sent2 + tail;
    AppendAssoc(sent1, SeedSent(s1, db.rejects, parseUrl, defaults), tail);
    AppendAssoc(sent0, SchemaSent(s0, db.rejects), SeedSent(s1, db.rejects, parseUrl, defaults) + tail);
    db.Close();
  }
}
