/** The named-query registry of commands/rss.js (`QUERIES`): each operation name maps to
    a template literal that splices its positional string arguments into fixed SQL text. */
module Queries {
  import opened Wrappers

  /** One piece of a template literal: fixed text, or the positional argument `${arg_i}`. */
  datatype Piece = Lit(text: string) | Hole(index: nat)

  type Template = seq<Piece>

  /** The text JavaScript splices in for argument `i`; a missing argument is `undefined`. */
  function Arg(args: seq<string>, i: nat): string
  {
    if i < |args| then args[i] else "undefined"
  }

  /** The text one piece contributes. */
  function PieceText(p: Piece, args: seq<string>): string
  {
    match p
    case Lit(x) => x
    case Hole(i) => Arg(args, i)
  }

  /** Renders a template literal: pure left-to-right interpolation, no escaping. */
  function Render(t: Template, args: seq<string>): string
  {
    if t == [] then "" else PieceText(t[0], args) + Render(t[1..], args)
  }

  /** The argument positions a template reads. */
  function Holes(t: Template): set<nat>
  {
    if t == [] then {}
    else (if t[0].Hole? then {t[0].index} else {}) + Holes(t[1..])
  }

  /** The operations `QUERIES` registers. */
  datatype Op =
    | SubscribeFeed | UnsubscribeFeed | InsertFeed | DeleteFeed | SelectFeeds
    | CreateTableFeeds | CreateTableArticles | HasTable

  /** The key under which `QUERIES` registers an operation. */
  function Name(op: Op): string
  {
    match op
    case SubscribeFeed => "subscribeFeed"
    case UnsubscribeFeed => "unsubscribeFeed"
    case InsertFeed => "insertFeed"
    case DeleteFeed => "deleteFeed"
    case SelectFeeds => "selectFeeds"
    case CreateTableFeeds => "createTableFeeds"
    case CreateTableArticles => "createTableArticles"
    case HasTable => "hasTable"
  }

  /** `name in QUERIES`: the operation registered under `name`, if any. */
  function Lookup(name: string): (r: Option<Op>)
  {
    if name == "subscribeFeed" then Some(SubscribeFeed)
    else if name == "unsubscribeFeed" then Some(UnsubscribeFeed)
    else if name == "insertFeed" then Some(InsertFeed)
    else if name == "deleteFeed" then Some(DeleteFeed)
    else if name == "selectFeeds" then Some(SelectFeeds)
    else if name == "createTableFeeds" then Some(CreateTableFeeds)
    else if name == "createTableArticles" then Some(CreateTableArticles)
    else if name == "hasTable" then Some(HasTable)
    else None
  }

  const SubscribeHead := "\n    UPDATE TABLE feeds\n    SET subscribed_at = CURRENT_TIMESTAMP\n    WHERE link LIKE '%"
  const UnsubscribeHead := "\n    UPDATE TABLE feeds\n    SET subscribed_at = null\n    WHERE link LIKE '%"
  const UpdateMiddle := "%'\n    OR title LIKE '%"
  const UpdateTail := "%';\n  "
  const InsertHead := "\n    INSERT INTO feeds (title, link) VALUES ('"
  const InsertMiddle := "', '"
  const InsertTail := "');\n  "
  const DeleteHead := "\n    DELETE FROM feeds WHERE link LIKE '%"
  const DeleteTail := "%';\n  "
  const HasTableHead := "\n    SELECT name\n    FROM sqlite_master\n    WHERE type='table'\n    AND name='"
  const HasTableTail := "';\n  "

  /** `QUERIES[Name(op)]`: the template literal of each operation. */
  function TemplateOf(op: Op): Template
  {
    match op
    case SubscribeFeed => [Lit(SubscribeHead), Hole(0), Lit(UpdateMiddle), Hole(0), Lit(UpdateTail)]
    case UnsubscribeFeed => [Lit(UnsubscribeHead), Hole(0), Lit(UpdateMiddle), Hole(0), Lit(UpdateTail)]
    case InsertFeed => [Lit(InsertHead), Hole(0), Lit(InsertMiddle), Hole(1), Lit(InsertTail)]
    case DeleteFeed => [Lit(DeleteHead), Hole(0), Lit(DeleteTail)]
    case SelectFeeds => [Lit("\n    SELECT * FROM feeds;\n  ")]
    case CreateTableFeeds => [Lit(
      "\n    CREATE TABLE IF NOT EXISTS feeds (\n      id integer PRIMARY KEY,\n      title text,\n" +
      "      link text,\n      subscribed_at timestamp,\n" +
      "      created_at timestamp DEFAULT CURRENT_TIMESTAMP\n    );\n  ")]
    case CreateTableArticles => [Lit(
      "\n    CREATE TABLE IF NOT EXISTS articles (\n      id integer PRIMARY KEY,\n" +
      "      article_id integer ,\n      title text,\n      link text,\n" +
      "      created_at timestamp DEFAULT CURRENT_TIMESTAMP,\n" +
      "      FOREIGN KEY (article_id) REFERENCES articles (id)\n" +
      "        ON UPDATE CASCADE\n        ON DELETE CASCADE\n    );\n  ")]
    case HasTable => [Lit(HasTableHead), Hole(0), Lit(HasTableTail)]
  }

  /** The query text `QUERIES[Name(op)](...args)`. */
  function Text(op: Op, args: seq<string>): string
  {
    Render(TemplateOf(op), args)
  }

  /** `QUERIES[name](...args)`, or None when no operation is registered under `name`. */
  function QueryText(name: string, args: seq<string>): Option<string>
  {
    match Lookup(name)
    case None => None
    case Some(op) => Some(Text(op, args))
  }

  /** The registry's keys and its operations correspond one to one. */
  lemma LookupName(name: string, op: Op)
    ensures Lookup(name) == Some(op) <==> name == Name(op)
  {
  }

  /** Rendering distributes over concatenation of templates. */
  lemma {:induction false} RenderAppend(t1: Template, t2: Template, args: seq<string>)
    ensures Render(t1 + t2, args) == Render(t1, args) + Render(t2, args)
  {
    if t1 == [] {
      assert t1 + t2 == t2;
    } else {
      assert (t1 + t2)[0] == t1[0];
      assert (t1 + t2)[1..] == t1[1..] + t2;
      RenderAppend(t1[1..], t2, args);
    }
  }

  /** A template reads its arguments only at its holes: argument lists that agree
      there render the same text. */
  lemma {:induction false} RenderAgrees(t: Template, a: seq<string>, b: seq<string>)
    requires forall i :: i in Holes(t) ==> Arg(a, i) == Arg(b, i)
    ensures Render(t, a) == Render(t, b)
  {
    if t != [] {
      assert Holes(t[1..]) <= Holes(t);
      RenderAgrees(t[1..], a, b);
    }
  }

  /** Arguments past those a query uses are ignored, as JavaScript ignores extra
      arguments to an arrow function; the argument-free queries ignore all of them. */
  lemma ExtraArgumentsIgnored(op: Op, args: seq<string>, extra: seq<string>)
    requires forall i :: i in Holes(TemplateOf(op)) ==> i < |args|
    ensures Text(op, args + extra) == Text(op, args)
  {
    RenderIgnoresExtra(TemplateOf(op), args, extra);
  }

  lemma RenderIgnoresExtra(t: Template, args: seq<string>, extra: seq<string>)
    requires forall i :: i in Holes(t) ==> i < |args|
    ensures Render(t, args + extra) == Render(t, args)
  {
    forall i | i in Holes(t) ensures Arg(args + extra, i) == Arg(args, i) {
      assert (args + extra)[i] == args[i];
    }
    RenderAgrees(t, args + extra, args);
  }

  lemma RenderThree(p0: Piece, p1: Piece, p2: Piece, args: seq<string>)
    ensures Render([p0, p1, p2], args) == PieceText(p0, args) + PieceText(p1, args) + PieceText(p2, args)
  {
    assert [p0, p1, p2][1..] == [p1, p2];
    assert [p1, p2][1..] == [p2];
    assert [p2][1..] == [];
    assert Render([p2], args) == PieceText(p2, args) + "";
    assert PieceText(p2, args) + "" == PieceText(p2, args);
  }

  lemma RenderFive(p0: Piece, p1: Piece, p2: Piece, p3: Piece, p4: Piece, args: seq<string>)
    ensures Render([p0, p1, p2, p3, p4], args)
         == PieceText(p0, args) + PieceText(p1, args) + PieceText(p2, args) + PieceText(p3, args) + PieceText(p4, args)
  {
    assert [p0, p1, p2, p3, p4] == [p0, p1, p2] + [p3, p4];
    RenderAppend([p0, p1, p2], [p3, p4], args);
    RenderThree(p0, p1, p2, args);
    assert [p3, p4] == [p3] + [p4];
    RenderAppend([p3], [p4], args);
    assert Render([p3], args) == PieceText(p3, args) + "";
    assert Render([p4], args) == PieceText(p4, args) + "";
  }

  /** `deleteFeed(s)`: fixed text with `s` between `'%` and `%'`. */
  lemma DeleteFeedText(s: string)
    ensures Text(DeleteFeed, [s]) == DeleteHead + s + DeleteTail
  {
    RenderThree(Lit(DeleteHead), Hole(0), Lit(DeleteTail), [s]);
  }

  /** Different `deleteFeed` arguments give different query texts. */
  lemma DeleteFeedInjective(s: string, u: string)
    requires Text(DeleteFeed, [s]) == Text(DeleteFeed, [u])
    ensures s == u
  {
    DeleteFeedText(s);
    DeleteFeedText(u);
    var q := DeleteHead + s + DeleteTail;
    var q' := DeleteHead + u + DeleteTail;
    assert s == q[|DeleteHead|..|q| - |DeleteTail|];
    assert u == q'[|DeleteHead|..|q'| - |DeleteTail|];
  }

  /** `insertFeed(t, l)`: `t` then `l`, each inside single quotes, in that order. */
  lemma InsertFeedText(t: string, l: string)
    ensures Text(InsertFeed, [t, l]) == InsertHead + t + InsertMiddle + l + InsertTail
  {
    RenderFive(Lit(InsertHead), Hole(0), Lit(InsertMiddle), Hole(1), Lit(InsertTail), [t, l]);
  }

  /** `subscribeFeed(s)` and `unsubscribeFeed(s)` splice `s` into both LIKE patterns,
      the one on `link` and the one on `title`. */
  lemma UpdateFeedTexts(s: string)
    ensures Text(SubscribeFeed, [s]) == SubscribeHead + s + UpdateMiddle + s + UpdateTail
    ensures Text(UnsubscribeFeed, [s]) == UnsubscribeHead + s + UpdateMiddle + s + UpdateTail
  {
    RenderFive(Lit(SubscribeHead), Hole(0), Lit(UpdateMiddle), Hole(0), Lit(UpdateTail), [s]);
    RenderFive(Lit(UnsubscribeHead), Hole(0), Lit(UpdateMiddle), Hole(0), Lit(UpdateTail), [s]);
  }

  /** The two update queries differ only in the value they assign to `subscribed_at`. */
  lemma UpdateQueriesDiffer(s: string)
    ensures Text(SubscribeFeed, [s]) != Text(UnsubscribeFeed, [s])
  {
    UpdateFeedTexts(s);
    var q := SubscribeHead + s + UpdateMiddle + s + UpdateTail;
    var q' := UnsubscribeHead + s + UpdateMiddle + s + UpdateTail;
    assert q[..|SubscribeHead|] == SubscribeHead;
    assert q'[..|UnsubscribeHead|] == UnsubscribeHead;
    assert q[48] == 'C' && q'[48] == 'n';
  }

  /** `hasTable(n)` compares `name` with `n` spliced between single quotes. */
  lemma HasTableText(n: string)
    ensures Text(HasTable, [n]) == HasTableHead + n + HasTableTail
  {
    RenderThree(Lit(HasTableHead), Hole(0), Lit(HasTableTail), [n]);
  }
}
