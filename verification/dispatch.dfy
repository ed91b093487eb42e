/**
 `HandleDoc` in bot/handlers.go: the lookup command's dispatch on the
 whitespace-separated fields of the message (`strings.Fields` is taken as done:
 the command arrives as its fields).

 `Classify` is the routing table; `HandleDoc` runs the chosen response and
 gives the card to send (none for an empty command) and the cache afterwards.
 */
module Dispatch {
  import opened Options
  import opened Text
  import opened Embeds
  import opened Cache
  import opened Lookup

  datatype Route =
    | Silent
    | Help
    | PkgInfo(pkg: string)
    | FuncLookup(pkg: string, name: string)
    | MethodLookup(pkg: string, recv: string, name: string)
    | TypeLookup(pkg: string, name: string)
    | Unsupported(kind: string)
    | TooMany

  /** The closing lines of the card for an unsupported search kind. */
  const ValidOptions: string := "\nValid options are:\n\t`func`\n\t`type`"

  /** The search kinds (lower-cased) that select a function lookup. */
  predicate IsFuncKeyword(kind: string)
    ensures IsFuncKeyword(kind) ==> ToLower(kind) == kind && kind != "type"
  {
    kind == "func" || kind == "function" || kind == "fn"
  }

  /** A function name: `Recv.Name` (split at dots) is a method, anything else a plain function. */
  function NameRoute(pkg: string, target: string): (r: Route)
    ensures r.FuncLookup? || r.MethodLookup?
    ensures r.FuncLookup? <==> '.' !in target
    ensures r.FuncLookup? ==> r == FuncLookup(pkg, target)
    ensures r.MethodLookup? ==> r.pkg == pkg && '.' !in r.recv && '.' !in r.name
  {
    if '.' in target then
      var split := Split(target, '.');
      MethodLookup(pkg, split[0], split[1])
    else
      FuncLookup(pkg, target)
  }

  function Classify(fields: seq<string>): (r: Route)
    ensures r == Silent <==> |fields| == 0
    ensures r == Help <==> |fields| == 1
    ensures r.PkgInfo? <==> |fields| == 2
    ensures r == TooMany <==> |fields| >= 5
    ensures r.TypeLookup? <==> |fields| == 4 && ToLower(fields[2]) == "type"
    ensures r.Unsupported? <==>
      |fields| == 4 && !IsFuncKeyword(ToLower(fields[2])) && ToLower(fields[2]) != "type"
    ensures r.FuncLookup? || r.MethodLookup? <==>
      |fields| == 3 || (|fields| == 4 && IsFuncKeyword(ToLower(fields[2])))
    ensures r.PkgInfo? || r.FuncLookup? || r.MethodLookup? || r.TypeLookup? ==> r.pkg == fields[1]
    ensures r.FuncLookup? || r.TypeLookup? ==> r.name == fields[|fields| - 1]
    ensures r.MethodLookup? <==> (r.FuncLookup? || r.MethodLookup?) && '.' in fields[|fields| - 1]
    ensures r.Unsupported? ==> r.kind == fields[2]
  {
    match |fields|
    case 0 => Silent
    case 1 => Help
    case 2 => PkgInfo(fields[1])
    case 3 => NameRoute(fields[1], fields[2])
    case 4 =>
      var kind := ToLower(fields[2]);
      if IsFuncKeyword(kind) then NameRoute(fields[1], fields[3])
      else if kind == "type" then TypeLookup(fields[1], fields[3])
      else Unsupported(fields[2])
    case _ => TooMany
  }

  /** A method lookup names the receiver type before the first dot of the
      typed name and the method between its first and second dots. */
  lemma MethodRouteSplitsAtDots(fields: seq<string>)
    requires Classify(fields).MethodLookup?
    ensures var r := Classify(fields);
      var target := fields[|fields| - 1];
      var i := IndexOf(target, '.');
      var rest := target[i + 1..];
      && r.recv == target[..i]
      && target == r.recv + "." + rest
      && r.name == rest[..IndexOf(rest, '.')]
  {
    SplitFirstTwo(fields[|fields| - 1], '.');
  }

  /** The card and cache for one route. */
  function Respond(cache: Cache, route: Route, fetched: DocResult): (r: Option<Reply>)
    ensures r.None? <==> route == Silent
    ensures r.Some? ==> r.value.cache.Keys == cache.Keys
    ensures route.Help? || route.Unsupported? || route.TooMany? ==> r.Some? && r.value.cache == cache
    ensures route.Help? ==> r == Some(Reply(DocsHelpEmbed, cache))
    ensures route.Unsupported? || route.TooMany? ==> r.Some? && r.value.embed.title == "Error"
    ensures route.Unsupported? ==>
      r == Some(Reply(ErrResponse("Unsupported search type " + Quote(route.kind)
                                  + ValidOptions), cache))
    ensures route.TooMany? ==> r == Some(Reply(ErrResponse("Too many arguments."), cache))
  {
    match route
    case Silent => None
    case Help => Some(Reply(DocsHelpEmbed, cache))
    case PkgInfo(pkg) => Some(PkgResponse(cache, pkg, fetched))
    case FuncLookup(pkg, name) => Some(FuncResponse(cache, pkg, name, fetched))
    case MethodLookup(pkg, recv, name) => Some(MethodResponse(cache, pkg, recv, name, fetched))
    case TypeLookup(pkg, name) => Some(TypeResponse(cache, pkg, name, fetched))
    case Unsupported(kind) =>
      Some(Reply(ErrResponse("Unsupported search type " + Quote(kind)
                             + ValidOptions), cache))
    case TooMany => Some(Reply(ErrResponse("Too many arguments."), cache))
  }

  /** `HandleDoc`: the card it sends (none for an empty command) and the cache after. */
  function HandleDoc(cache: Cache, fields: seq<string>, fetched: DocResult): (r: (Option<Embed>, Cache))
    ensures r.0.None? <==> |fields| == 0
    ensures r.1.Keys == cache.Keys
    ensures |fields| == 0 || |fields| == 1 || |fields| >= 5 ==> r.1 == cache
    ensures |fields| == 1 ==> r.0 == Some(DocsHelpEmbed)
    ensures |fields| >= 5 ==> r.0 == Some(ErrResponse("Too many arguments."))
    ensures Classify(fields).Unsupported? ==> r.1 == cache && r.0.Some? && r.0.value.title == "Error"
    ensures Classify(fields).Unsupported? ==>
      r.0 == Some(ErrResponse("Unsupported search type " + Quote(fields[2])
                              + ValidOptions))
  {
    match Respond(cache, Classify(fields), fetched)
    case None => (None, cache)
    case Some(reply) => (Some(reply.embed), reply.cache)
  }

  /** A lookup whose package cannot be had (not cached and the fetch fails)
      always answers with an error card and leaves the cache as it was. */
  lemma FetchFailureAnswersError(cache: Cache, fields: seq<string>, e: string)
    requires |fields| >= 2 && !Hit(cache, fields[1])
    ensures var r := HandleDoc(cache, fields, Err(e));
      r.0.Some? && r.0.value.title == "Error" && r.1 == cache
  {
  }

  /** A function lookup spelled with a search keyword answers exactly like the
      three-field form without it. */
  lemma FuncKeywordIsOptional(cache: Cache, cmd: string, pkg: string, kind: string, name: string, fetched: DocResult)
    requires IsFuncKeyword(ToLower(kind))
    ensures HandleDoc(cache, [cmd, pkg, kind, name], fetched) == HandleDoc(cache, [cmd, pkg, name], fetched)
  {
  }

  /** Each lookup route answers with the card of the response it names, on the
      cache that response leaves. */
  lemma HandleDocRunsResponses(cache: Cache, cmd: string, pkg: string, name: string, fetched: DocResult)
    ensures var r := PkgResponse(cache, pkg, fetched);
      HandleDoc(cache, [cmd, pkg], fetched) == (Some(r.embed), r.cache)
    ensures '.' !in name ==> var r := FuncResponse(cache, pkg, name, fetched);
      HandleDoc(cache, [cmd, pkg, name], fetched) == (Some(r.embed), r.cache)
    ensures '.' in name ==> var split := Split(name, '.');
      var r := MethodResponse(cache, pkg, split[0], split[1], fetched);
      HandleDoc(cache, [cmd, pkg, name], fetched) == (Some(r.embed), r.cache)
    ensures var r := TypeResponse(cache, pkg, name, fetched);
      HandleDoc(cache, [cmd, pkg, "type", name], fetched) == (Some(r.embed), r.cache)
  {
    assert Classify([cmd, pkg]) == PkgInfo(pkg);
    assert Classify([cmd, pkg, name]) == NameRoute(pkg, name);
    assert ToLower("type") == "type";
    assert Classify([cmd, pkg, "type", name]) == TypeLookup(pkg, name);
  }
}
