/**
 `FuncsPages`, `TypesPages` and `PagesShortResponse` in bot/handlers.go: opening
 a paged view of a package's functions or types.

 A page session (`ReactionListener`) is registered in the listener map under
 the ID of the message that shows it, and only once that message was sent.
 The pieces the handlers call but that are not part of this model become
 parameters: `format` stands for `formatForMessage`, `now` for `MakeTimestamp()`,
 and `send` for the outcome of sending the first page.
 */
module Pages {
  import opened Options
  import opened Text
  import opened Docs
  import opened Embeds
  import opened Cache

  /** Which collection of the page a session browses. */
  datatype Subject = Functions | Types

  /** `ReactionListener`. */
  datatype Listener = Listener(
    kind: string,
    currentPage: int,
    pageLimit: int,
    userId: string,
    data: Doc,
    lastUsed: int)

  type Listeners = map<string, Listener>

  /** What sending the first page gave: the new message's ID, or an error. */
  datatype Send = Delivered(messageId: string) | SendFailed

  datatype PagesStep = PagesStep(reply: Option<Embed>, cache: Cache, listeners: Listeners)

  const PageSize := 10

  /** `int(math.Ceil(float64(count) / 10.0))`. */
  function PageLimit(count: nat): (pages: nat)
    ensures pages * 10 >= count
    ensures count > 0 ==> (pages - 1) * 10 < count
    ensures pages == 0 <==> count == 0
  {
    (count + PageSize - 1) / PageSize
  }

  /** The page limit is the least number of ten-item pages that holds every item;
      in particular an empty list has no pages at all. */
  lemma PageLimitIsCeiling(count: nat, pages: nat)
    ensures PageLimit(count) * PageSize >= count
    ensures pages * PageSize >= count ==> pages >= PageLimit(count)
    ensures PageLimit(count) == 0 <==> count == 0
  {
  }

  lemma PageLimitExamples()
    ensures PageLimit(0) == 0 && PageLimit(10) == 1 && PageLimit(11) == 2 && PageLimit(25) == 3
  {
  }

  /** The opening of the help card's description. */
  const NotEnoughArguments: string := "It seems you didn't have enough arguments, so here's an example!\n\n"

  /** `PagesShortResponse(state, prefix)`: the help card of the `state` command. */
  function PagesShortResponse(state: string, prefix: string): (e: Embed)
    ensures |e.title| == 5 + |state| && e.title[..5] == "Help " && e.title[5..] == state
    ensures e.footer.None?
  {
    Embed("Help " + state,
          NotEnoughArguments + prefix + state + " strings",
          None)
  }

  function CommandName(subject: Subject): string
  {
    match subject
    case Functions => "getfuncs"
    case Types => "gettypes"
  }

  function SubjectName(subject: Subject): string
  {
    match subject
    case Functions => "functions"
    case Types => "types"
  }

  function ItemCount(subject: Subject, doc: Doc): nat
  {
    match subject
    case Functions => |doc.functions|
    case Types => |doc.types|
  }

  /** The session a successful lookup opens: on page 1, owned by the requester. */
  function NewListener(subject: Subject, doc: Doc, author: string, now: int): (l: Listener)
    ensures l.currentPage == 1 && l.userId == author && l.data == doc && l.lastUsed == now
    ensures l.pageLimit == PageLimit(ItemCount(subject, doc))
    ensures l.kind == SubjectName(subject)
  {
    Listener(SubjectName(subject), 1, PageLimit(ItemCount(subject, doc)), author, doc, now)
  }

  /** A two-field command once `getDoc` has answered: an error card when the
      lookup failed, else the first page, whose session is kept when it was sent. */
  function Opened(subject: Subject, pkg: string, got: Lookup, listeners: Listeners, author: string,
                  format: Listener -> string, send: Send, now: int): (r: PagesStep)
    ensures r.cache == got.cache && r.reply.Some?
    ensures got.result.Err? ==> r.listeners == listeners && r.reply.value.title == "Error"
    ensures !(got.result.Ok? && send.Delivered?) ==> r.listeners == listeners
    ensures got.result.Ok? ==> r.reply.value.title == SubjectName(subject)
    ensures got.result.Ok? && send.Delivered? ==>
      r.listeners == listeners[send.messageId := NewListener(subject, got.result.doc, author, now)]
  {
    match got.result
    case Err(_) =>
      PagesStep(Some(ErrResponse("Error while getting the page for the package `" + pkg + "`")),
                got.cache, listeners)
    case Ok(doc) =>
      var page := NewListener(subject, doc, author, now);
      var embed := Embed(SubjectName(subject), format(page), Some("Page 1/" + NatToString(page.pageLimit)));
      match send
      case SendFailed => PagesStep(Some(embed), got.cache, listeners)
      case Delivered(id) => PagesStep(Some(embed), got.cache, listeners[id := page])
  }

  /** The body shared by `FuncsPages` and `TypesPages`. */
  function OpenPages(subject: Subject, cache: Cache, listeners: Listeners, fields: seq<string>,
                     prefix: string, author: string, fetched: DocResult,
                     format: Listener -> string, send: Send, now: int): (r: PagesStep)
    ensures r.reply.None? <==> |fields| == 0
    ensures r.cache.Keys == cache.Keys
    ensures |fields| != 2 ==> r.cache == cache && r.listeners == listeners
    ensures |fields| != 2 && |fields| != 0 ==> r.reply == Some(PagesShortResponse(CommandName(subject), prefix))
    ensures |fields| == 2 ==> r.cache == GetDoc(cache, fields[1], fetched).cache
    ensures |fields| == 2 && GetDoc(cache, fields[1], fetched).result.Err? ==>
      r.listeners == listeners && r.reply.Some? && r.reply.value.title == "Error"
    ensures !Opens(cache, fields, fetched, send) ==> r.listeners == listeners
    ensures Opens(cache, fields, fetched, send) ==>
      var doc := GetDoc(cache, fields[1], fetched).result.doc;
      && r.listeners == listeners[send.messageId := NewListener(subject, doc, author, now)]
      && r.reply.Some? && r.reply.value.title == SubjectName(subject)
  {
    if |fields| == 0 then
      PagesStep(None, cache, listeners)
    else if |fields| != 2 then
      PagesStep(Some(PagesShortResponse(CommandName(subject), prefix)), cache, listeners)
    else
      Opened(subject, fields[1], GetDoc(cache, fields[1], fetched), listeners, author, format, send, now)
  }

  /** A page session is opened: two fields, the document was had, and the first
      page was sent. */
  predicate Opens(cache: Cache, fields: seq<string>, fetched: DocResult, send: Send)
  {
    |fields| == 2 && GetDoc(cache, fields[1], fetched).result.Ok? && send.Delivered?
  }

  /** `FuncsPages`. */
  function FuncsPages(cache: Cache, listeners: Listeners, fields: seq<string>, prefix: string,
                      author: string, fetched: DocResult, format: Listener -> string,
                      send: Send, now: int): (r: PagesStep)
    ensures |fields| != 2 ==> r.listeners == listeners
    ensures |fields| != 2 && |fields| != 0 ==> r.reply == Some(PagesShortResponse("getfuncs", prefix))
    ensures Opens(cache, fields, fetched, send) ==>
      var doc := GetDoc(cache, fields[1], fetched).result.doc;
      && send.messageId in r.listeners
      && var l := r.listeners[send.messageId];
      && l.kind == "functions" && l.currentPage == 1 && l.userId == author
      && l.pageLimit == PageLimit(|doc.functions|)
  {
    var r := OpenPages(Functions, cache, listeners, fields, prefix, author, fetched, format, send, now);
    assert CommandName(Functions) == "getfuncs";
    r
  }

  /** `TypesPages`. */
  function TypesPages(cache: Cache, listeners: Listeners, fields: seq<string>, prefix: string,
                      author: string, fetched: DocResult, format: Listener -> string,
                      send: Send, now: int): (r: PagesStep)
    ensures |fields| != 2 ==> r.listeners == listeners
    ensures |fields| != 2 && |fields| != 0 ==> r.reply == Some(PagesShortResponse("gettypes", prefix))
    ensures Opens(cache, fields, fetched, send) ==>
      var doc := GetDoc(cache, fields[1], fetched).result.doc;
      && send.messageId in r.listeners
      && var l := r.listeners[send.messageId];
      && l.kind == "types" && l.currentPage == 1 && l.userId == author
      && l.pageLimit == PageLimit(|doc.types|)
  {
    var r := OpenPages(Types, cache, listeners, fields, prefix, author, fetched, format, send, now);
    assert CommandName(Types) == "gettypes";
    r
  }

  /** Opening a session adds exactly the sent message's key to the listener map
      (when that message is new) and leaves every other session as it was. */
  lemma OpenAddsOneSession(subject: Subject, cache: Cache, listeners: Listeners, fields: seq<string>,
                           prefix: string, author: string, fetched: DocResult,
                           format: Listener -> string, send: Send, now: int)
    requires Opens(cache, fields, fetched, send) && send.messageId !in listeners
    ensures var r := OpenPages(subject, cache, listeners, fields, prefix, author, fetched, format, send, now);
      && r.listeners.Keys == listeners.Keys + {send.messageId}
      && |r.listeners| == |listeners| + 1
      && forall k :: k in listeners ==> r.listeners[k] == listeners[k]
  {
  }

  /** The first page's footer reads `Page 1/<limit>`, and the limit reads back
      as the session's page limit. */
  lemma FirstPageFooterShowsLimit(subject: Subject, cache: Cache, listeners: Listeners, fields: seq<string>,
                                  prefix: string, author: string, fetched: DocResult,
                                  format: Listener -> string, send: Send, now: int)
    requires |fields| == 2 && GetDoc(cache, fields[1], fetched).result.Ok?
    ensures var r := OpenPages(subject, cache, listeners, fields, prefix, author, fetched, format, send, now);
      var doc := GetDoc(cache, fields[1], fetched).result.doc;
      && r.reply.Some? && r.reply.value.footer.Some?
      && var footer := r.reply.value.footer.value;
      && |footer| > 7 && footer[..7] == "Page 1/"
      && IsDigits(footer[7..]) && ParseNat(footer[7..]) == PageLimit(ItemCount(subject, doc))
  {
    var doc := GetDoc(cache, fields[1], fetched).result.doc;
    var n := PageLimit(ItemCount(subject, doc));
    ParseNatToString(n);
    var footer := "Page 1/" + NatToString(n);
    assert footer[7..] == NatToString(n);
  }

  /** A session opened on an empty list starts on page 1 of 0 pages: its current
      page lies beyond its page limit. */
  lemma EmptyListSessionStartsPastLimit(subject: Subject, doc: Doc, author: string, now: int)
    requires ItemCount(subject, doc) == 0
    ensures var l := NewListener(subject, doc, author, now); l.currentPage > l.pageLimit
  {
  }

  /** A session opened on a non-empty list starts within its pages. */
  lemma NonEmptyListSessionStartsInRange(subject: Subject, doc: Doc, author: string, now: int)
    requires ItemCount(subject, doc) > 0
    ensures var l := NewListener(subject, doc, author, now); 1 <= l.currentPage <= l.pageLimit
  {
  }
}
