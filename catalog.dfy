/** The feed catalog behind `db.exec` in commands/rss.js, as a value: the tables that
    exist, the rows of `feeds`, the next row id and an abstract clock. `Step` gives the
    effect of one named query; the other functions give the effect of the helpers that
    issue several (schema-ensure, seeding, add). The engine's failures are a predicate
    `rejects` on the query issued (the operation and the arguments it renders), so that a rejected query leaves the store as it was. */
module Catalog {
  import opened Wrappers
  import opened Strings
  import opened Queries

  /** An abstract `CURRENT_TIMESTAMP` value. */
  type Time = nat

  /** A row of the `feeds` table. */
  datatype Feed = Feed(id: nat, title: string, link: string, subscribedAt: Option<Time>, createdAt: Time)

  /** The database file: which tables exist, the `feeds` rows in rowid order, the id the
      next insert gets, and the clock that stamps `created_at` and `subscribed_at`. */
  datatype Store = Store(tables: set<string>, feeds: seq<Feed>, nextId: nat, clock: Time)

  /** The first result set of a query: `hasTable` yields table names, `selectFeeds` feed
      rows, the statements that write yield none. */
  datatype ResultSet = NoRows | NameRows(names: seq<string>) | FeedRows(feeds: seq<Feed>)

  datatype ExecError = UnknownOperation(name: string) | QueryFailed(op: Op, args: seq<string>)

  /** What one `db.exec` leaves behind: the new store and what it returned or threw. */
  datatype Outcome = Outcome(store: Store, result: Result<ResultSet, ExecError>)

  /** What a helper made of several queries leaves behind: the store and the error it threw, if any. */
  datatype Done = Done(store: Store, thrown: Option<ExecError>)

  const FeedsTable := "feeds"
  const ArticlesTable := "articles"

  function Length(rs: ResultSet): nat
  {
    match rs
    case NoRows => 0
    case NameRows(ns) => |ns|
    case FeedRows(fs) => |fs|
  }

  /** `WHERE link LIKE '%p%'` (deleteFeed), read as substring containment. */
  predicate DeleteMatches(f: Feed, pattern: string)
  {
    Contains(f.link, pattern)
  }

  /** `WHERE link LIKE '%p%' OR title LIKE '%p%'` (subscribeFeed, unsubscribeFeed). */
  predicate UpdateMatches(f: Feed, pattern: string)
  {
    Contains(f.link, pattern) || Contains(f.title, pattern)
  }

  /** The rows a `deleteFeed` leaves, in their order. */
  function Keep(feeds: seq<Feed>, pattern: string): seq<Feed>
  {
    if feeds == [] then []
    else if DeleteMatches(feeds[0], pattern) then Keep(feeds[1..], pattern)
    else [feeds[0]] + Keep(feeds[1..], pattern)
  }

  /** The rows after `SET subscribed_at = value` on the rows matching `pattern`. */
  function SetSubscribed(feeds: seq<Feed>, pattern: string, value: Option<Time>): seq<Feed>
  {
    seq(|feeds|, i requires 0 <= i < |feeds| =>
      if UpdateMatches(feeds[i], pattern) then feeds[i].(subscribedAt := value) else feeds[i])
  }

  /** Running operation `op` with `args`: a text the engine rejects, or a statement on
      `feeds` before that table exists, fails; every statement that writes rows advances
      the clock once. */
  function Step(s: Store, rejects: (Op, seq<string>) -> bool, op: Op, args: seq<string>): (o: Outcome)
    ensures o.result.Err? ==> o.store == s
    ensures s.tables <= o.store.tables <= s.tables + {FeedsTable, ArticlesTable}
  {
    var q := QueryFailed(op, args);
    if rejects(op, args) then Outcome(s, Err(q))
    else
      match op
      case HasTable =>
        Outcome(s, Ok(if Arg(args, 0) in s.tables then NameRows([Arg(args, 0)]) else NameRows([])))
      case CreateTableFeeds => Outcome(s.(tables := s.tables + {FeedsTable}), Ok(NoRows))
      case CreateTableArticles => Outcome(s.(tables := s.tables + {ArticlesTable}), Ok(NoRows))
      case SelectFeeds => OnFeeds(s, q, Outcome(s, Ok(FeedRows(s.feeds))))
      case InsertFeed =>
        var row := Feed(s.nextId, Arg(args, 0), Arg(args, 1), None, s.clock);
        OnFeeds(s, q, Outcome(s.(feeds := s.feeds + [row], nextId := s.nextId + 1, clock := s.clock + 1), Ok(NoRows)))
      case DeleteFeed =>
        OnFeeds(s, q, Outcome(s.(feeds := Keep(s.feeds, Arg(args, 0)), clock := s.clock + 1), Ok(NoRows)))
      case SubscribeFeed =>
        OnFeeds(s, q, Outcome(s.(feeds := SetSubscribed(s.feeds, Arg(args, 0), Some(s.clock)), clock := s.clock + 1), Ok(NoRows)))
      case UnsubscribeFeed =>
        OnFeeds(s, q, Outcome(s.(feeds := SetSubscribed(s.feeds, Arg(args, 0), None), clock := s.clock + 1), Ok(NoRows)))
  }

  /** A statement on `feeds` fails with "no such table" until that table exists. */
  function OnFeeds(s: Store, q: ExecError, done: Outcome): Outcome
  {
    if FeedsTable in s.tables then done else Outcome(s, Err(q))
  }

  /** `db.exec(name, args)`: an unregistered name throws; otherwise the operation runs. */
  function Exec(s: Store, rejects: (Op, seq<string>) -> bool, name: string, args: seq<string>): (o: Outcome)
    ensures o.result.Err? ==> o.store == s
    ensures Lookup(name).None? ==> o == Outcome(s, Err(UnknownOperation(name)))
  {
    match Lookup(name)
    case None => Outcome(s, Err(UnknownOperation(name)))
    case Some(op) => Step(s, rejects, op, args)
  }

  /** Row ids increase along the table and stay below the next id; no row carries a
      timestamp the clock has not yet reached. */
  predicate Inv(s: Store)
  {
    && (forall i, j :: 0 <= i < j < |s.feeds| ==> s.feeds[i].id < s.feeds[j].id)
    && (forall i :: 0 <= i < |s.feeds| ==>
          && s.feeds[i].id < s.nextId
          && s.feeds[i].createdAt < s.clock
          && (s.feeds[i].subscribedAt.Some? ==> s.feeds[i].subscribedAt.value < s.clock))
  }

  // ---------------------------------------------------------------------------------
  // createTablesIfMissing

  /** `createTablesIfMissing`: probe `hasTable('feeds')`, create `feeds` when the probe
      returned no row, then the same for `articles`. The first failure is thrown. */
  function EnsureSchema(s: Store, rejects: (Op, seq<string>) -> bool): Done
  {
    var probeFeeds := Step(s, rejects, HasTable, [FeedsTable]);
    if probeFeeds.result.Err? then Done(probeFeeds.store, Some(probeFeeds.result.error))
    else
      var feeds := if Length(probeFeeds.result.value) == 0
                   then Step(probeFeeds.store, rejects, CreateTableFeeds, []) else probeFeeds;
      if feeds.result.Err? then Done(feeds.store, Some(feeds.result.error))
      else
        var probeArticles := Step(feeds.store, rejects, HasTable, [ArticlesTable]);
        if probeArticles.result.Err? then Done(probeArticles.store, Some(probeArticles.result.error))
        else
          var articles := if Length(probeArticles.result.value) == 0
                          then Step(probeArticles.store, rejects, CreateTableArticles, []) else probeArticles;
          if articles.result.Err? then Done(articles.store, Some(articles.result.error))
          else Done(articles.store, None)
  }

  // ---------------------------------------------------------------------------------
  // Fetching and inserting one feed (seeding and addFeed)

  /** What `parser.parseURL` yields on success: the feed's title and link, where the
      empty string stands for a missing (falsy) field. */
  datatype Doc = Doc(title: string, link: string)

  /** An entry of the bundled default list `rss_feeds.json`. */
  datatype DefaultFeed = DefaultFeed(title: string, link: string)

  /** `feed && feed.title && feed.link`, then the trimmed pair that is inserted. */
  function Fetched(fetch: string -> Option<Doc>, url: string): Option<(string, string)>
  {
    match fetch(url)
    case None => None
    case Some(d) => if d.title != "" && d.link != "" then Some((Trim(d.title), Trim(d.link))) else None
  }

  /** Fetch `url` and, when it yields a title and a link, issue `insertFeed` with them
      trimmed; every failure is caught and leaves the store as it was. */
  function TryInsert(s: Store, rejects: (Op, seq<string>) -> bool, fetch: string -> Option<Doc>, url: string): Store
  {
    match Fetched(fetch, url)
    case None => s
    case Some(p) => Step(s, rejects, InsertFeed, [p.0, p.1]).store
  }

  /** The loop of `seedEmptyFeedsTable`: try each remaining entry in list order. */
  function SeedFrom(s: Store, rejects: (Op, seq<string>) -> bool, fetch: string -> Option<Doc>, entries: seq<DefaultFeed>): Store
    decreases |entries|
  {
    if entries == [] then s
    else SeedFrom(TryInsert(s, rejects, fetch, entries[0].link), rejects, fetch, entries[1..])
  }

  /** `seedEmptyFeedsTable`: select the feeds (a failure is thrown) and run the loop only
      when there are none. */
  function Seed(s: Store, rejects: (Op, seq<string>) -> bool, fetch: string -> Option<Doc>, defaults: seq<DefaultFeed>): Done
  {
    var select := Step(s, rejects, SelectFeeds, []);
    if select.result.Err? then Done(s, Some(select.result.error))
    else if Length(select.result.value) != 0 then Done(s, None)
    else Done(SeedFrom(s, rejects, fetch, defaults), None)
  }

  /** `addFeed(db, link)`: an absent `--add` value makes `parseURL` throw, which is caught. */
  function AddLink(s: Store, rejects: (Op, seq<string>) -> bool, fetch: string -> Option<Doc>, link: Option<string>): Store
  {
    if link.None? then s else TryInsert(s, rejects, fetch, link.value)
  }

  // ---------------------------------------------------------------------------------
  // Reference definitions for what seeding produces

  /** The engine accepts the `insertFeed` text for this pair. */
  predicate InsertAccepted(rejects: (Op, seq<string>) -> bool, p: (string, string))
  {
    !rejects(InsertFeed, [p.0, p.1])
  }

  /** The pair one default entry contributes to seeding: none when its fetch fails, a
      field is missing or the engine rejects the insert, else its trimmed title and link. */
  function AdmitOne(rejects: (Op, seq<string>) -> bool, fetch: string -> Option<Doc>, e: DefaultFeed): seq<(string, string)>
  {
    match Fetched(fetch, e.link)
    case None => []
    case Some(p) => if InsertAccepted(rejects, p) then [p] else []
  }

  /** The (trimmed) pairs that seeding from `entries` inserts, in list order. */
  function Admitted(rejects: (Op, seq<string>) -> bool, fetch: string -> Option<Doc>, entries: seq<DefaultFeed>): seq<(string, string)>
  {
    if entries == [] then [] else AdmitOne(rejects, fetch, entries[0]) + Admitted(rejects, fetch, entries[1..])
  }

  /** Fresh unsubscribed rows for `pairs`, numbered and stamped from `id` and `clock` on. */
  function NewRows(pairs: seq<(string, string)>, id: nat, clock: Time): seq<Feed>
  {
    if pairs == [] then []
    else [Feed(id, pairs[0].0, pairs[0].1, None, clock)] + NewRows(pairs[1..], id + 1, clock + 1)
  }
}
