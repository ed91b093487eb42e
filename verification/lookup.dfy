/**
 The lookup responses of bot/handlers.go: `funcResponse`, `methodResponse`,
 `typeResponse` and `pkgResponse`.

 Each one looks the package up through `getDoc`, keeps the entries whose name
 (and, for methods, receiver type) equals the query up to case, renders every
 match in page order, trims the result to the 2000-character rule, and takes the
 title's and footer's name from the stored casing of the last match.

 The matches and bodies are defined here by filtering (`FuncMatches`,
 `FuncBody`, …); the `Scan…` methods follow the Go loops literally, including
 the running update of `name` to the casing of each match, and are proved to
 compute the same thing.
 */
module Lookup {
  import opened Options
  import opened Text
  import opened Seqs
  import opened Docs
  import opened Embeds
  import opened Cache

  /** A card to send, and the cache after the lookup that produced it. */
  datatype Reply = Reply(embed: Embed, cache: Cache)

  // ---------------------------------------------------------------------------
  // Matching

  /** A plain function whose lower-cased name is `key`. */
  function IsFunc(key: string): Function -> bool
  {
    (f: Function) => f.kind == FnNormal && ToLower(f.name) == key
  }

  /** A method whose lower-cased name is `key` and lower-cased receiver type is `recvKey`. */
  function IsMethod(recvKey: string, key: string): Function -> bool
  {
    (f: Function) => f.kind == FnMethod && ToLower(f.name) == key && ToLower(f.methodOf) == recvKey
  }

  /** A type whose lower-cased name is `key`. */
  function IsType(key: string): Type -> bool
  {
    (t: Type) => ToLower(t.name) == key
  }

  function FuncMatches(fns: seq<Function>, name: string): seq<Function>
  {
    Filter(IsFunc(ToLower(name)), fns)
  }

  function MethodMatches(fns: seq<Function>, recv: string, name: string): seq<Function>
  {
    Filter(IsMethod(ToLower(recv), ToLower(name)), fns)
  }

  function TypeMatches(types: seq<Type>, name: string): seq<Type>
  {
    Filter(IsType(ToLower(name)), types)
  }

  function FunctionName(f: Function): string { f.name }

  function TypeName(t: Type): string { t.name }

  /** The name a response shows: the stored name of the last match, or the
      typed name when nothing matched. */
  function LastName<T>(matches: seq<T>, nameOf: T -> string, typed: string): string
  {
    if matches == [] then typed else nameOf(matches[|matches| - 1])
  }

  // ---------------------------------------------------------------------------
  // Rendering one entry

  /** The lines after a signature: a newline, then the first comment line, or
      `placeholder` when there is none. */
  function FirstComment(comments: seq<string>, placeholder: string): (r: string)
    ensures |r| >= 1 && r[0] == '\n'
    ensures |comments| > 0 ==> r[1..] == comments[0]
    ensures |comments| == 0 ==> r[1..] == placeholder
  {
    if |comments| > 0 then "\n" + comments[0] else "\n" + placeholder
  }

  /** One function in a `funcResponse` body: the signature in backquotes, the
      first comment line or `*no information*`, then the example if there is one. */
  function FuncBlock(f: Function): (b: string)
    ensures |b| > 0 && b[0] == '`'
    ensures var head := "`" + f.signature + "`";
      var c := FirstComment(f.comments, "*no information*");
      && |b| >= |head| + |c|
      && b[..|head|] == head
      && b[|head|..|head| + |c|] == c
      && (f.example == "" ==> |b| == |head| + |c|)
      && (f.example != "" ==> b[|head| + |c|..] == "\n\nExample:\n```go\n" + f.example + "\n```")
  {
    "`" + f.signature + "`" + FirstComment(f.comments, "*no information*")
    + (if f.example != "" then "\n\nExample:\n```go\n" + f.example + "\n```" else "")
  }

  /** One method in a `methodResponse` body: the signature in backquotes, the
      first comment line or `*no info*`, then the example (fenced without a
      language) if there is one. */
  function MethodBlock(f: Function): (b: string)
    ensures |b| > 0 && b[0] == '`'
    ensures var head := "`" + f.signature + "`";
      var c := FirstComment(f.comments, "*no info*");
      && |b| >= |head| + |c|
      && b[..|head|] == head
      && b[|head|..|head| + |c|] == c
      && (f.example == "" ==> |b| == |head| + |c|)
      && (f.example != "" ==> b[|head| + |c|..] == "\nExample:\n```\n" + f.example + "\n```")
  {
    "`" + f.signature + "`" + FirstComment(f.comments, "*no info*")
    + (if f.example != "" then "\nExample:\n```\n" + f.example + "\n```" else "")
  }

  /** One type in a `typeResponse` body: the signature in a Go code fence, then
      the first comment line or `*no information*`. */
  function TypeBlock(t: Type): (b: string)
    ensures |b| > 0 && b[0] == '`'
    ensures var head := "```go\n" + t.signature + "\n```";
      var c := FirstComment(t.comments, "*no information*");
      && |b| == |head| + |c|
      && b[..|head|] == head
      && b[|head|..] == c
  {
    "```go\n" + t.signature + "\n```" + FirstComment(t.comments, "*no information*")
  }

  function FuncBody(fns: seq<Function>, name: string): string
  {
    Concat(FuncBlock, FuncMatches(fns, name))
  }

  function MethodBody(fns: seq<Function>, recv: string, name: string): string
  {
    Concat(MethodBlock, MethodMatches(fns, recv, name))
  }

  function TypeBody(types: seq<Type>, name: string): string
  {
    Concat(TypeBlock, TypeMatches(types, name))
  }

  /** A body is empty exactly when nothing matched, so the code's `msg == ""`
      test is a no-match test. */
  lemma BodiesEmptyIffNoMatch(fns: seq<Function>, types: seq<Type>, recv: string, name: string)
    ensures FuncBody(fns, name) == "" <==> FuncMatches(fns, name) == []
    ensures MethodBody(fns, recv, name) == "" <==> MethodMatches(fns, recv, name) == []
    ensures TypeBody(types, name) == "" <==> TypeMatches(types, name) == []
  {
  }

  // ---------------------------------------------------------------------------
  // The loops as written

  /** Comparing against the running name, which equals the typed name up to
      case, is the same test as comparing against the typed name. */
  lemma FuncHit(f: Function, shown: string, name: string)
    requires FoldEq(shown, name)
    ensures (f.kind == FnNormal && FoldEq(f.name, shown)) == IsFunc(ToLower(name))(f)
  {
  }

  lemma MethodHit(f: Function, shown: string, recv: string, name: string)
    requires FoldEq(shown, name)
    ensures (f.kind == FnMethod && FoldEq(f.name, shown) && FoldEq(f.methodOf, recv))
            == IsMethod(ToLower(recv), ToLower(name))(f)
  {
  }

  lemma TypeHit(t: Type, shown: string, name: string)
    requires FoldEq(shown, name)
    ensures FoldEq(t.name, shown) == IsType(ToLower(name))(t)
  {
  }

  /** The `funcResponse` loop, comparing each entry against the running `name`. */
  method ScanFunctions(fns: seq<Function>, name: string) returns (msg: string, shown: string)
    ensures msg == FuncBody(fns, name)
    ensures shown == LastName(FuncMatches(fns, name), FunctionName, name)
    ensures FoldEq(shown, name)
  {
    msg := "";
    shown := name;
    ghost var ms: seq<Function> := [];
    var i := 0;
    while i < |fns|
      invariant 0 <= i <= |fns|
      invariant ms == FuncMatches(fns[..i], name)
      invariant msg == Concat(FuncBlock, ms)
      invariant shown == LastName(ms, FunctionName, name)
      invariant FoldEq(shown, name)
    {
      var fn := fns[i];
      var hit := fn.kind == FnNormal && FoldEq(fn.name, shown);
      FuncHit(fn, shown, name);
      FilterConcatStep(IsFunc(ToLower(name)), FuncBlock, fns, i, hit);
      if hit {
        shown := fn.name;
        msg := msg + FuncBlock(fn);
        ms := ms + [fn];
      }
      i := i + 1;
    }
    assert fns[..i] == fns;
  }

  /** The `methodResponse` loop; only the method name is updated, not the receiver. */
  method ScanMethods(fns: seq<Function>, recv: string, name: string) returns (msg: string, shown: string)
    ensures msg == MethodBody(fns, recv, name)
    ensures shown == LastName(MethodMatches(fns, recv, name), FunctionName, name)
    ensures FoldEq(shown, name)
  {
    msg := "";
    shown := name;
    ghost var ms: seq<Function> := [];
    var i := 0;
    while i < |fns|
      invariant 0 <= i <= |fns|
      invariant ms == MethodMatches(fns[..i], recv, name)
      invariant msg == Concat(MethodBlock, ms)
      invariant shown == LastName(ms, FunctionName, name)
      invariant FoldEq(shown, name)
    {
      var fn := fns[i];
      var hit := fn.kind == FnMethod && FoldEq(fn.name, shown) && FoldEq(fn.methodOf, recv);
      MethodHit(fn, shown, recv, name);
      FilterConcatStep(IsMethod(ToLower(recv), ToLower(name)), MethodBlock, fns, i, hit);
      if hit {
        shown := fn.name;
        msg := msg + MethodBlock(fn);
        ms := ms + [fn];
      }
      i := i + 1;
    }
    assert fns[..i] == fns;
  }

  /** The `typeResponse` loop. */
  method ScanTypes(types: seq<Type>, name: string) returns (msg: string, shown: string)
    ensures msg == TypeBody(types, name)
    ensures shown == LastName(TypeMatches(types, name), TypeName, name)
    ensures FoldEq(shown, name)
  {
    msg := "";
    shown := name;
    ghost var ms: seq<Type> := [];
    var i := 0;
    while i < |types|
      invariant 0 <= i <= |types|
      invariant ms == TypeMatches(types[..i], name)
      invariant msg == Concat(TypeBlock, ms)
      invariant shown == LastName(ms, TypeName, name)
      invariant FoldEq(shown, name)
    {
      var t := types[i];
      var hit := FoldEq(t.name, shown);
      TypeHit(t, shown, name);
      FilterConcatStep(IsType(ToLower(name)), TypeBlock, types, i, hit);
      if hit {
        shown := t.name;
        msg := msg + TypeBlock(t);
        ms := ms + [t];
      }
      i := i + 1;
    }
    assert types[..i] == types;
  }

  // ---------------------------------------------------------------------------
  // The responses

  /** `funcResponse(pkg, name)`. */
  function FuncResponse(cache: Cache, pkg: string, name: string, fetched: DocResult): (r: Reply)
    ensures r.cache == GetDoc(cache, pkg, fetched).cache
    ensures var got := GetDoc(cache, pkg, fetched).result;
      r.embed.title == "Error" <==> got.Err? || FuncMatches(got.doc.functions, name) == []
    ensures var got := GetDoc(cache, pkg, fetched).result;
      got.Ok? && FuncMatches(got.doc.functions, name) != [] ==>
        var ms := FuncMatches(got.doc.functions, name);
        var last := ms[|ms| - 1];
        && r.embed.description == Trim(FuncBody(got.doc.functions, name), FuncTrimNotice)
        && last in got.doc.functions && last.kind == FnNormal && FoldEq(last.name, name)
        && r.embed.title == pkg + ": func " + last.name
        && r.embed.footer == Some(got.doc.url + "#" + last.name)
  {
    var got := GetDoc(cache, pkg, fetched);
    match got.result
    case Err(_) =>
      Reply(ErrResponse("An error occurred while fetching the page for pkg `" + pkg + "`"), got.cache)
    case Ok(doc) =>
      if |doc.functions| == 0 then
        Reply(ErrResponse("No results found for package: " + Quote(pkg) + ", function: " + Quote(name)), got.cache)
      else
        var ms := FuncMatches(doc.functions, name);
        var msg := FuncBody(doc.functions, name);
        var shown := LastName(ms, FunctionName, name);
        if msg == "" then
          Reply(ErrResponse("The package `" + pkg + "` does not have function `" + name + "`"), got.cache)
        else
          assert ms[|ms| - 1] in ms;
          Reply(Embed(pkg + ": func " + shown, Trim(msg, FuncTrimNotice), Some(doc.url + "#" + shown)), got.cache)
  }

  /** `methodResponse(pkg, recv, name)`; the title repeats the receiver as typed. */
  function MethodResponse(cache: Cache, pkg: string, recv: string, name: string, fetched: DocResult): (r: Reply)
    ensures r.cache == GetDoc(cache, pkg, fetched).cache
    ensures var got := GetDoc(cache, pkg, fetched).result;
      r.embed.title == "Error" <==> got.Err? || MethodMatches(got.doc.functions, recv, name) == []
    ensures var got := GetDoc(cache, pkg, fetched).result;
      got.Ok? && MethodMatches(got.doc.functions, recv, name) != [] ==>
        var ms := MethodMatches(got.doc.functions, recv, name);
        var last := ms[|ms| - 1];
        && r.embed.description == Trim(MethodBody(got.doc.functions, recv, name), TrimNotice)
        && last in got.doc.functions && last.kind == FnMethod
        && FoldEq(last.name, name) && FoldEq(last.methodOf, recv)
        && r.embed.title == pkg + ": func(" + recv + ") " + last.name
        && r.embed.footer == Some(got.doc.url + "#" + last.name)
  {
    var got := GetDoc(cache, pkg, fetched);
    match got.result
    case Err(_) =>
      Reply(ErrResponse("Error while getting the page for the package `" + pkg + "`"), got.cache)
    case Ok(doc) =>
      if |doc.functions| == 0 then
        Reply(ErrResponse("Package `" + pkg + "` seems to have no functions"), got.cache)
      else
        var ms := MethodMatches(doc.functions, recv, name);
        var msg := MethodBody(doc.functions, recv, name);
        var shown := LastName(ms, FunctionName, name);
        if msg == "" then
          Reply(ErrResponse("Package `" + pkg + "` does not have `func(" + recv + ") " + name + "`"), got.cache)
        else
          assert ms[|ms| - 1] in ms;
          Reply(Embed(pkg + ": func(" + recv + ") " + shown, Trim(msg, TrimNotice), Some(doc.url + "#" + shown)), got.cache)
  }

  /** `typeResponse(pkg, name)`. */
  function TypeResponse(cache: Cache, pkg: string, name: string, fetched: DocResult): (r: Reply)
    ensures r.cache == GetDoc(cache, pkg, fetched).cache
    ensures var got := GetDoc(cache, pkg, fetched).result;
      r.embed.title == "Error" <==> got.Err? || TypeMatches(got.doc.types, name) == []
    ensures var got := GetDoc(cache, pkg, fetched).result;
      got.Ok? && TypeMatches(got.doc.types, name) != [] ==>
        var ms := TypeMatches(got.doc.types, name);
        var last := ms[|ms| - 1];
        && r.embed.description == Trim(TypeBody(got.doc.types, name), TrimNotice)
        && last in got.doc.types && FoldEq(last.name, name)
        && r.embed.title == pkg + ": type " + last.name
        && r.embed.footer == Some(got.doc.url + "#" + last.name)
  {
    var got := GetDoc(cache, pkg, fetched);
    match got.result
    case Err(_) =>
      Reply(ErrResponse("An error occurred while getting the page for the package `" + pkg + "`"), got.cache)
    case Ok(doc) =>
      if |doc.types| == 0 then
        Reply(ErrResponse("Package `" + pkg + "` seems to have no type definitions"), got.cache)
      else
        var ms := TypeMatches(doc.types, name);
        var msg := TypeBody(doc.types, name);
        var shown := LastName(ms, TypeName, name);
        if msg == "" then
          Reply(ErrResponse("Package `" + pkg + "` does not have type `" + name + "`"), got.cache)
        else
          assert ms[|ms| - 1] in ms;
          Reply(Embed(pkg + ": type " + shown, Trim(msg, TrimNotice), Some(doc.url + "#" + shown)), got.cache)
  }

  /** `pkgResponse(pkg)`: the number of types and functions on the page. */
  function PkgResponse(cache: Cache, pkg: string, fetched: DocResult): (r: Reply)
    ensures r.cache == GetDoc(cache, pkg, fetched).cache
    ensures r.embed.title == "Error" <==> GetDoc(cache, pkg, fetched).result.Err?
    ensures r.embed.footer.None?
  {
    var got := GetDoc(cache, pkg, fetched);
    match got.result
    case Err(_) =>
      Reply(ErrResponse("An error occured when requesting the page for the package `" + pkg + "`"), got.cache)
    case Ok(doc) =>
      Reply(Embed("Info for " + pkg,
                  "Types: " + NatToString(|doc.types|) + "\nFunctions:" + NatToString(|doc.functions|),
                  None),
            got.cache)
  }

  // ---------------------------------------------------------------------------
  // Properties

  /** The package card reports both counts in a form that reads back. */
  lemma PkgResponseReportsCounts(cache: Cache, pkg: string, fetched: DocResult)
    requires GetDoc(cache, pkg, fetched).result.Ok?
    ensures var doc := GetDoc(cache, pkg, fetched).result.doc;
      var r := PkgResponse(cache, pkg, fetched);
      exists ts, fs ::
        && r.embed.description == "Types: " + ts + "\nFunctions:" + fs
        && IsDigits(ts) && IsDigits(fs)
        && ParseNat(ts) == |doc.types| && ParseNat(fs) == |doc.functions|
  {
    var doc := GetDoc(cache, pkg, fetched).result.doc;
    ParseNatToString(|doc.types|);
    ParseNatToString(|doc.functions|);
    var ts, fs := NatToString(|doc.types|), NatToString(|doc.functions|);
    assert PkgResponse(cache, pkg, fetched).embed.description == "Types: " + ts + "\nFunctions:" + fs;
  }

  /** Every match contributes its block in page order: the body of two stretches
      of a page is the body of the first followed by that of the second. */
  lemma BodiesFollowPageOrder(a: seq<Function>, b: seq<Function>, ta: seq<Type>, tb: seq<Type>, recv: string, name: string)
    ensures FuncBody(a + b, name) == FuncBody(a, name) + FuncBody(b, name)
    ensures MethodBody(a + b, recv, name) == MethodBody(a, recv, name) + MethodBody(b, recv, name)
    ensures TypeBody(ta + tb, name) == TypeBody(ta, name) + TypeBody(tb, name)
  {
    FilterAppend(IsFunc(ToLower(name)), a, b);
    ConcatAppend(FuncBlock, FuncMatches(a, name), FuncMatches(b, name));
    FilterAppend(IsMethod(ToLower(recv), ToLower(name)), a, b);
    ConcatAppend(MethodBlock, MethodMatches(a, recv, name), MethodMatches(b, recv, name));
    FilterAppend(IsType(ToLower(name)), ta, tb);
    ConcatAppend(TypeBlock, TypeMatches(ta, name), TypeMatches(tb, name));
  }

  /** Only plain functions are found by a function lookup and only methods by a
      method lookup, so the two never share a match. */
  lemma FuncAndMethodMatchesDisjoint(fns: seq<Function>, recv: string, name: string, f: Function)
    ensures !(f in FuncMatches(fns, name) && f in MethodMatches(fns, recv, name))
  {
  }

  /** The typed name's case does not matter when something matches: any spelling
      equal up to case gives the same card, showing the stored casing. */
  lemma LookupsIgnoreCase(cache: Cache, pkg: string, a: string, b: string, recv: string, recv': string, fetched: DocResult)
    requires FoldEq(a, b) && FoldEq(recv, recv')
    ensures var got := GetDoc(cache, pkg, fetched).result;
      got.Ok? && FuncMatches(got.doc.functions, a) != [] ==>
        FuncResponse(cache, pkg, a, fetched) == FuncResponse(cache, pkg, b, fetched)
    ensures var got := GetDoc(cache, pkg, fetched).result;
      got.Ok? && TypeMatches(got.doc.types, a) != [] ==>
        TypeResponse(cache, pkg, a, fetched) == TypeResponse(cache, pkg, b, fetched)
    ensures var got := GetDoc(cache, pkg, fetched).result;
      got.Ok? && MethodMatches(got.doc.functions, recv, a) != [] ==>
        MethodResponse(cache, pkg, recv, a, fetched).embed.description
          == MethodResponse(cache, pkg, recv', b, fetched).embed.description
  {
  }

  lemma LowerMarshal()
    ensures ToLower("Marshal") == "marshal"
    ensures ToLower("marshal") == "marshal"
    ensures ToLower("MARSHAL") == "marshal"
  {
    assert ToLower("Marshal")[0] == 'm';
    assert ToLower("MARSHAL")[1] == 'a';
    assert ToLower("MARSHAL")[2] == 'r';
    assert ToLower("MARSHAL")[3] == 's';
    assert ToLower("MARSHAL")[4] == 'h';
    assert ToLower("MARSHAL")[5] == 'a';
    assert ToLower("MARSHAL")[6] == 'l';
  }

  /** With one entry named `Marshal` on the page, the lookups `marshal` and
      `MARSHAL` both find it and title the card with the stored casing. */
  lemma MarshalFoundInAnyCase(url: string)
    ensures var m := Function("Marshal", FnNormal, "", "func Marshal(v any) ([]byte, error)", [], "");
      var fetched := Ok(Doc(url, [m], []));
      && FuncResponse(map[], "encoding/json", "marshal", fetched).embed.title == "encoding/json: func Marshal"
      && FuncResponse(map[], "encoding/json", "MARSHAL", fetched).embed.title == "encoding/json: func Marshal"
      && FuncResponse(map[], "encoding/json", "MARSHAL", fetched).embed.footer == Some(url + "#Marshal")
  {
    var m := Function("Marshal", FnNormal, "", "func Marshal(v any) ([]byte, error)", [], "");
    var fetched := Ok(Doc(url, [m], []));
    LowerMarshal();
    assert IsFunc("marshal")(m);
    assert FuncMatches([m], "marshal") == [m];
    assert FuncMatches([m], "MARSHAL") == [m];
    assert FuncBody([m], "marshal") != "";
    assert FuncBody([m], "MARSHAL") != "";
    assert GetDoc(map[], "encoding/json", fetched).result == fetched;
    assert "encoding/json" + ": func " + "Marshal" == "encoding/json: func Marshal";
    assert url + "#" + "Marshal" == url + "#Marshal";
  }
}
