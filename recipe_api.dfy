/**
 * The HTTP client of the recipe backend (src/api/recipeApi.ts), with the network abstracted:
 * what is modelled is which request each operation sends (method, path, query pairs, body)
 * and how a response becomes a value or a failure.
 */
module RecipeApi {
  import opened Wrappers
  import opened Text
  import opened Seqs
  import opened RecipeTypes

  const BaseUrl := "/api"

  /** One query parameter, before percent-encoding: a name and a value. */
  type Pair = (string, string)

  /** `URLSearchParams.getAll`: the values of every pair with that name, in order. */
  function GetAll(ps: seq<Pair>, name: string): seq<string> {
    ValuesOf(ps, name)
  }

  lemma GetAllAppend(a: seq<Pair>, b: seq<Pair>, name: string)
    ensures GetAll(a + b, name) == GetAll(a, name) + GetAll(b, name)
  {
    ValuesOfAppend(a, b, name);
  }

  lemma GetAllAppendAll(a: seq<Pair>, b: seq<Pair>)
    ensures forall n :: GetAll(a + b, n) == GetAll(a, n) + GetAll(b, n)
  {
    forall n ensures GetAll(a + b, n) == GetAll(a, n) + GetAll(b, n) {
      GetAllAppend(a, b, n);
    }
  }

  lemma GetAllSingle(p: Pair)
    ensures forall n :: GetAll([p], n) == if p.0 == n then [p.1] else []
  {
    forall n ensures GetAll([p], n) == if p.0 == n then [p.1] else [] {
      GetAllCons(p, [], n);
      assert [p] + [] == [p];
    }
  }

  /** Reading a list that starts with `p`: its value first when the name matches, then the rest's. */
  lemma GetAllCons(p: Pair, rest: seq<Pair>, n: string)
    ensures GetAll([p] + rest, n) == (if p.0 == n then [p.1] else []) + GetAll(rest, n)
  {
    var ps := [p] + rest;
    assert ps[0] == p;
    assert ps[1..] == rest;
  }

  /** `URLSearchParams.has`. */
  predicate HasName(ps: seq<Pair>, name: string) {
    GetAll(ps, name) != []
  }

  /**
   * The pairs after `URLSearchParams.set(name, value)`, as the URL Standard defines it: when pairs
   * with that name exist, the first one takes the value and the others are removed; otherwise a
   * new pair is appended. Either way `name` then has exactly the one value and other names keep theirs.
   */
  function SetPair(ps: seq<Pair>, name: string, value: string): (r: seq<Pair>)
    ensures GetAll(r, name) == [value]
    ensures forall n :: n != name ==> GetAll(r, n) == GetAll(ps, n)
  {
    if HasName(ps, name) then
      forall n ensures GetAll(ReplaceNamed(ps, name, value, false), n)
        == if n == name then [value] else GetAll(ps, n) {
        ReplaceNamedGetAll(ps, name, value, false, n);
      }
      ReplaceNamed(ps, name, value, false)
    else
      var last := [(name, value)];
      GetAllSingle((name, value));
      GetAllAppendAll(ps, last);
      ps + last
  }

  /** Gives the first pair named `name` (unless one was `seen` already) the value; drops the rest. */
  function ReplaceNamed(ps: seq<Pair>, name: string, value: string, seen: bool): seq<Pair>
  {
    if |ps| == 0 then []
    else if ps[0].0 != name then [ps[0]] + ReplaceNamed(ps[1..], name, value, seen)
    else if seen then ReplaceNamed(ps[1..], name, value, true)
    else [(name, value)] + ReplaceNamed(ps[1..], name, value, true)
  }

  /**
   * After `ReplaceNamed`, `name` holds the one new value when a pair with it existed and had not been
   * `seen`, and nothing otherwise; every other name reads back exactly as before.
   */
  lemma {:induction false} ReplaceNamedGetAll(ps: seq<Pair>, name: string, value: string, seen: bool, n: string)
    ensures GetAll(ReplaceNamed(ps, name, value, seen), n)
      == if n == name then (if !seen && HasName(ps, name) then [value] else []) else GetAll(ps, n)
  {
    if |ps| > 0 {
      var p := ps[0];
      var seen' := seen || p.0 == name;
      var rest := ReplaceNamed(ps[1..], name, value, seen');
      ReplaceNamedGetAll(ps[1..], name, value, seen', n);
      ReplaceNamedGetAll(ps[1..], name, value, seen', name);
      assert ps == [p] + ps[1..];
      GetAllCons(p, ps[1..], n);
      GetAllCons(p, ps[1..], name);
      if p.0 != name {
        GetAllCons(p, rest, n);
      } else if !seen {
        GetAllCons((name, value), rest, n);
      }
    }
  }

  /** A `URLSearchParams` object: an ordered list of pairs changed in place. */
  class SearchParams {
    var pairs: seq<Pair>

    constructor()
      ensures pairs == []
    {
      pairs := [];
    }

    method Set(name: string, value: string)
      modifies this
      ensures pairs == SetPair(old(pairs), name, value)
    {
      pairs := SetPair(pairs, name, value);
    }

    method Append(name: string, value: string)
      modifies this
      ensures pairs == old(pairs) + [(name, value)]
    {
      pairs := pairs + [(name, value)];
    }
  }

  /** The optional search criteria of `findRecipes`. */
  datatype FindParams = FindParams(title: Option<string>, typeOfDish: Option<string>, tags: Option<seq<string>>)

  /** JavaScript truthiness of an optional string: present and non-empty. */
  predicate Truthy(s: Option<string>) {
    s.Some? && s.value != ""
  }

  /** One `tags` pair per tag, in list order. */
  function TagPairs(tags: seq<string>): (r: seq<Pair>)
    ensures |r| == |tags|
    ensures forall k :: 0 <= k < |tags| ==> r[k] == ("tags", tags[k])
  {
    if |tags| == 0 then [] else [("tags", tags[0])] + TagPairs(tags[1..])
  }

  /** The pairs set before the tags: `title` then `typeOfDish`, each only when truthy. */
  function FilterPairs(p: FindParams): (r: seq<Pair>)
    ensures |r| <= 2
    ensures forall k :: 0 <= k < |r| ==> r[k].1 != "" && (r[k].0 == "title" || r[k].0 == "typeOfDish")
    ensures forall v :: ("title", v) in r <==> p.title == Some(v) && v != ""
    ensures forall v :: ("typeOfDish", v) in r <==> p.typeOfDish == Some(v) && v != ""
  {
    (if Truthy(p.title) then [("title", p.title.value)] else [])
    + (if Truthy(p.typeOfDish) then [("typeOfDish", p.typeOfDish.value)] else [])
  }

  /** The query `findRecipes` sends. */
  function FindQuery(p: FindParams): (r: seq<Pair>)
    ensures |r| <= 2 + |p.tags.GetOr([])|
    ensures forall k :: 0 <= k < |r| ==> r[k].0 == "title" || r[k].0 == "typeOfDish" || r[k].0 == "tags"
    ensures forall k :: 0 <= k < |r| && r[k].0 != "tags" ==> r[k].1 != ""
  {
    FilterPairs(p) + TagPairs(p.tags.GetOr([]))
  }

  /** Builds the search query the way `findRecipes` does: two conditional `set`s, then one `append` per tag. */
  method BuildFindQuery(p: FindParams) returns (q: seq<Pair>)
    ensures q == FindQuery(p)
  {
    var qs := new SearchParams();
    SetFilters(qs, p);
    var head := qs.pairs;
    var tags := p.tags.GetOr([]);
    var i := 0;
    while i < |tags|
      invariant 0 <= i <= |tags|
      invariant qs.pairs == head + TagPairs(tags[..i])
    {
      TagPairsSnoc(tags, i);
      qs.Append("tags", tags[i]);
      i := i + 1;
    }
    assert tags[..i] == tags;
    q := qs.pairs;
  }

  /** The two conditional `set`s of `findRecipes`, applied to a fresh parameter list. */
  method SetFilters(qs: SearchParams, p: FindParams)
    requires qs.pairs == []
    modifies qs
    ensures qs.pairs == FilterPairs(p)
  {
    if Truthy(p.title) {
      SetFresh([], "title", p.title.value);
      qs.Set("title", p.title.value);
    }
    if Truthy(p.typeOfDish) {
      GetAllSingle(("title", p.title.GetOr("")));
      SetFresh(qs.pairs, "typeOfDish", p.typeOfDish.value);
      qs.Set("typeOfDish", p.typeOfDish.value);
    }
  }

  /** `set` of a name not present yet appends one pair. */
  lemma SetFresh(ps: seq<Pair>, name: string, value: string)
    requires GetAll(ps, name) == []
    ensures SetPair(ps, name, value) == ps + [(name, value)]
  {
  }

  /** One more tag adds one more pair at the end. */
  lemma TagPairsSnoc(tags: seq<string>, i: nat)
    requires i < |tags|
    ensures TagPairs(tags[..i + 1]) == TagPairs(tags[..i]) + [("tags", tags[i])]
  {
  }

  /** Reading the search query back gives exactly the criteria: each truthy field once, every tag in order. */
  lemma FindQueryReadsBack(p: FindParams)
    ensures GetAll(FindQuery(p), "title") == if Truthy(p.title) then [p.title.value] else []
    ensures GetAll(FindQuery(p), "typeOfDish") == if Truthy(p.typeOfDish) then [p.typeOfDish.value] else []
    ensures GetAll(FindQuery(p), "tags") == p.tags.GetOr([])
    ensures forall n :: n != "title" && n != "typeOfDish" && n != "tags" ==> GetAll(FindQuery(p), n) == []
  {
    FindQueryGetAll(p, "title");
    FindQueryGetAll(p, "typeOfDish");
    FindQueryGetAll(p, "tags");
    forall n | n != "title" && n != "typeOfDish" && n != "tags" ensures GetAll(FindQuery(p), n) == [] {
      FindQueryGetAll(p, n);
    }
  }

  /** The values of one name in the search query, field by field. */
  lemma FindQueryGetAll(p: FindParams, n: string)
    ensures GetAll(FindQuery(p), n)
         == (if n == "title" && Truthy(p.title) then [p.title.value] else [])
          + (if n == "typeOfDish" && Truthy(p.typeOfDish) then [p.typeOfDish.value] else [])
          + (if n == "tags" then p.tags.GetOr([]) else [])
  {
    var tags := p.tags.GetOr([]);
    var t := if Truthy(p.title) then [("title", p.title.value)] else [];
    var d := if Truthy(p.typeOfDish) then [("typeOfDish", p.typeOfDish.value)] else [];
    assert FilterPairs(p) == t + d;
    GetAllAppend(t + d, TagPairs(tags), n);
    GetAllAppend(t, d, n);
    TagPairsReadBack(tags, n);
    if t != [] {
      GetAllSingle(t[0]);
    }
    if d != [] {
      GetAllSingle(d[0]);
    }
  }

  lemma {:induction false} TagPairsReadBack(tags: seq<string>, n: string)
    ensures GetAll(TagPairs(tags), n) == if n == "tags" then tags else []
  {
    if tags != [] {
      TagPairsReadBack(tags[1..], n);
      assert TagPairs(tags)[1..] == TagPairs(tags[1..]);
    }
  }

  /** The position class of a parameter name: `title` first, `typeOfDish` second, `tags` last. */
  function NameRank(name: string): nat {
    if name == "title" then 0 else if name == "typeOfDish" then 1 else 2
  }

  /** The search pairs come in the order title, typeOfDish, tags. */
  lemma FindQueryOrder(p: FindParams)
    ensures forall i, j :: 0 <= i < j < |FindQuery(p)| ==> NameRank(FindQuery(p)[i].0) <= NameRank(FindQuery(p)[j].0)
  {
    var q := FindQuery(p);
    var h := FilterPairs(p);
    assert forall i :: |h| <= i < |q| ==> q[i].0 == "tags";
  }

  /** The query `findTags` sends: a `tagName` pair only for a truthy argument. */
  function TagQuery(tagName: Option<string>): (r: seq<Pair>)
    ensures |r| <= 1
    ensures r != [] <==> Truthy(tagName)
    ensures forall k :: 0 <= k < |r| ==> r[k] == ("tagName", tagName.value)
  {
    if Truthy(tagName) then [("tagName", tagName.value)] else []
  }

  method BuildTagQuery(tagName: Option<string>) returns (q: seq<Pair>)
    ensures q == TagQuery(tagName)
    ensures GetAll(q, "tagName") == if Truthy(tagName) then [tagName.value] else []
    ensures |q| <= 1
  {
    var qs := new SearchParams();
    if Truthy(tagName) {
      qs.Set("tagName", tagName.value);
    }
    q := qs.pairs;
  }

  datatype HttpMethod = GET | POST | PUT | DELETE

  /** The backend endpoints the client uses. */
  datatype Route =
    | AllRecipes
    | RecipeSearch
    | RecipeByUuid(uuid: string)
    | RecipeCreation
    | RecipeUpdate(uuid: string)
    | TagSearch
    | CookCount(uuid: string)
    | RecipeDeletion(uuid: string)
    | PhotoUpload(uuid: string)

  const RecipePrefix := BaseUrl + "/recipe/"

  /** The method and path of each endpoint. */
  function Target(r: Route): (t: (HttpMethod, string))
    ensures StripPrefix(t.1, BaseUrl + "/").Some?
    ensures t.0 == GET <==> r.AllRecipes? || r.RecipeSearch? || r.RecipeByUuid? || r.TagSearch?
  {
    match r
    case AllRecipes => (GET, RecipePrefix + "getAll")
    case RecipeSearch => (GET, RecipePrefix + "find")
    case RecipeByUuid(u) => (GET, RecipePrefix + u)
    case RecipeCreation => (POST, RecipePrefix + "create")
    case RecipeUpdate(u) => (PUT, RecipePrefix + "update/" + u)
    case TagSearch => (GET, BaseUrl + "/recipeTag/find")
    case CookCount(u) => (POST, RecipePrefix + u + "/cook")
    case RecipeDeletion(u) => (DELETE, RecipePrefix + "delete/" + u)
    case PhotoUpload(u) => (POST, RecipePrefix + u + "/addPhoto")
  }

  /** The characters of a `crypto.randomUUID()` identifier (hex digits and dashes). */
  predicate IsUuidChar(c: char) {
    ('0' <= c <= '9') || ('a' <= c <= 'f') || ('A' <= c <= 'F') || c == '-'
  }

  predicate ValidUuid(u: string) {
    |u| > 0 && forall i :: 0 <= i < |u| ==> IsUuidChar(u[i])
  }

  function StripPrefix(s: string, prefix: string): (r: Option<string>)
    ensures r.Some? ==> s == prefix + r.value
  {
    if |prefix| <= |s| && s[..|prefix|] == prefix then Some(s[|prefix|..]) else None
  }

  function StripSuffix(s: string, suffix: string): (r: Option<string>)
    ensures r.Some? ==> s == r.value + suffix
  {
    if |suffix| <= |s| && s[|s| - |suffix|..] == suffix then Some(s[..|s| - |suffix|]) else None
  }

  /** Which endpoint a method and path address, if any: the inverse of `Target`. */
  function ParseTarget(m: HttpMethod, path: string): Option<Route> {
    var rest := StripPrefix(path, RecipePrefix);
    match m
    case GET =>
      if rest.Some? && ValidUuid(rest.value) then Some(RecipeByUuid(rest.value))
      else if rest == Some("getAll") then Some(AllRecipes)
      else if rest == Some("find") then Some(RecipeSearch)
      else if path == BaseUrl + "/recipeTag/find" then Some(TagSearch)
      else None
    case POST =>
      if rest.None? then None
      else
        var cook := StripSuffix(rest.value, "/cook");
        var photo := StripSuffix(rest.value, "/addPhoto");
        if cook.Some? && ValidUuid(cook.value) then Some(CookCount(cook.value))
        else if photo.Some? && ValidUuid(photo.value) then Some(PhotoUpload(photo.value))
        else if rest.value == "create" then Some(RecipeCreation)
        else None
    case PUT =>
      var u := StripPrefix(path, RecipePrefix + "update/");
      if u.Some? && ValidUuid(u.value) then Some(RecipeUpdate(u.value)) else None
    case DELETE =>
      var u := StripPrefix(path, RecipePrefix + "delete/");
      if u.Some? && ValidUuid(u.value) then Some(RecipeDeletion(u.value)) else None
  }

  /** The identifier an endpoint carries, if it carries one. */
  function RouteUuid(r: Route): Option<string> {
    match r
    case RecipeByUuid(u) => Some(u)
    case RecipeUpdate(u) => Some(u)
    case CookCount(u) => Some(u)
    case RecipeDeletion(u) => Some(u)
    case PhotoUpload(u) => Some(u)
    case _ => None
  }

  /**
   * The endpoints are unambiguous: for well-formed identifiers, the method and path of every
   * endpoint identify that endpoint and its identifier again.
   */
  lemma TargetRoundTrip(r: Route)
    requires RouteUuid(r).Some? ==> ValidUuid(RouteUuid(r).value)
    ensures ParseTarget(Target(r).0, Target(r).1) == Some(r)
  {
    match r
    case AllRecipes =>
      StripPrefixOf(RecipePrefix, "getAll");
      assert !IsUuidChar("getAll"[0]);
    case RecipeSearch =>
      StripPrefixOf(RecipePrefix, "find");
      assert !IsUuidChar("find"[1]);
    case RecipeByUuid(u) =>
      StripPrefixOf(RecipePrefix, u);
    case RecipeCreation =>
      CreationParses();
    case RecipeUpdate(u) =>
      StripPrefixOf(RecipePrefix + "update/", u);
    case TagSearch =>
      var path := Target(r).1;
      assert path[11] == 'T' && RecipePrefix[11] == '/';
      assert StripPrefix(path, RecipePrefix).None?;
    case CookCount(u) =>
      CookParses(u);
    case RecipeDeletion(u) =>
      StripPrefixOf(RecipePrefix + "delete/", u);
    case PhotoUpload(u) =>
      PhotoParses(u);
  }

  lemma CreationParses()
    ensures ParseTarget(POST, RecipePrefix + "create") == Some(RecipeCreation)
  {
    StripPrefixOf(RecipePrefix, "create");
    assert "create"[1..] != "/cook" by { assert "create"[1..][0] != '/'; }
    assert StripSuffix("create", "/cook").None?;
    assert StripSuffix("create", "/addPhoto").None?;
  }

  lemma CookParses(u: string)
    requires ValidUuid(u)
    ensures ParseTarget(POST, RecipePrefix + u + "/cook") == Some(CookCount(u))
  {
    assert RecipePrefix + u + "/cook" == RecipePrefix + (u + "/cook");
    StripPrefixOf(RecipePrefix, u + "/cook");
    StripSuffixOf(u, "/cook");
  }

  lemma PhotoParses(u: string)
    requires ValidUuid(u)
    ensures ParseTarget(POST, RecipePrefix + u + "/addPhoto") == Some(PhotoUpload(u))
  {
    var rest := u + "/addPhoto";
    assert RecipePrefix + u + "/addPhoto" == RecipePrefix + rest;
    StripPrefixOf(RecipePrefix, rest);
    StripSuffixOf(u, "/addPhoto");
    assert rest[|rest| - 5..] == "Photo";
    assert StripSuffix(rest, "/cook").None?;
  }

  lemma StripPrefixOf(prefix: string, s: string)
    ensures StripPrefix(prefix + s, prefix) == Some(s)
  {
    assert (prefix + s)[..|prefix|] == prefix;
    assert (prefix + s)[|prefix|..] == s;
  }

  lemma StripSuffixOf(s: string, suffix: string)
    ensures StripSuffix(s + suffix, suffix) == Some(s)
  {
    var t := s + suffix;
    assert t[|t| - |suffix|..] == suffix;
    assert t[..|t| - |suffix|] == s;
  }

  /** The file chosen in the photo picker (its bytes travel as multipart content, not modelled). */
  datatype PhotoFile = PhotoFile(name: string)

  datatype Body = NoBody | JsonRecipe(recipe: Recipe) | ImageForm(image: PhotoFile)

  datatype Request = Request(verb: HttpMethod, path: string, query: seq<Pair>, body: Body)

  /** One call of an exported operation, with its arguments. */
  datatype ApiCall =
    | GetAllRecipes
    | FindRecipes(params: FindParams)
    | GetRecipeByUuid(uuid: string)
    | CreateRecipe(recipe: Recipe)
    | UpdateRecipe(uuid: string, recipe: Recipe)
    | FindTags(tagName: Option<string>)
    | IncrementCookCount(uuid: string)
    | DeleteRecipe(uuid: string)
    | AddPhoto(recipeUuid: string, image: PhotoFile)

  function RouteOf(c: ApiCall): Route {
    match c
    case GetAllRecipes => AllRecipes
    case FindRecipes(_) => RecipeSearch
    case GetRecipeByUuid(u) => RecipeByUuid(u)
    case CreateRecipe(_) => RecipeCreation
    case UpdateRecipe(u, _) => RecipeUpdate(u)
    case FindTags(_) => TagSearch
    case IncrementCookCount(u) => CookCount(u)
    case DeleteRecipe(u) => RecipeDeletion(u)
    case AddPhoto(u, _) => PhotoUpload(u)
  }

  /** The one HTTP request each call sends: only the two lookups carry a query, only the writes a body. */
  function RequestOf(c: ApiCall): (r: Request)
    ensures r.query != [] ==> c.FindRecipes? || c.FindTags?
    ensures r.body != NoBody <==> c.CreateRecipe? || c.UpdateRecipe? || c.AddPhoto?
  {
    var (verb, path) := Target(RouteOf(c));
    match c
    case FindRecipes(p) => Request(verb, path, FindQuery(p), NoBody)
    case FindTags(t) => Request(verb, path, TagQuery(t), NoBody)
    case CreateRecipe(recipe) => Request(verb, path, [], JsonRecipe(recipe))
    case UpdateRecipe(_, recipe) => Request(verb, path, [], JsonRecipe(recipe))
    case AddPhoto(_, image) => Request(verb, path, [], ImageForm(image))
    case _ => Request(verb, path, [], NoBody)
  }

  /** Every request addresses the endpoint of its operation, and with it the identifier it was given. */
  lemma RequestAddressesCall(c: ApiCall)
    requires RouteUuid(RouteOf(c)).Some? ==> ValidUuid(RouteUuid(RouteOf(c)).value)
    ensures ParseTarget(RequestOf(c).verb, RequestOf(c).path) == Some(RouteOf(c))
  {
    TargetRoundTrip(RouteOf(c));
  }

  /** What `fetch` yields: a response with a status and a decoded body, or a rejection. */
  datatype Response<T> = Response(status: nat, body: T) | NetworkFailure(message: string)

  /** Why an operation failed: a non-ok HTTP status, or an error thrown by `fetch` itself. */
  datatype ApiError = HttpStatus(status: nat) | Thrown(message: string)

  /** `Response.ok`: a status in the range 200-299. */
  predicate IsOk(status: nat) {
    200 <= status <= 299
  }

  /** The common tail of every operation: a non-ok status throws `HTTP <status>`, otherwise the body is the value. */
  function Complete<T>(resp: Response<T>): (r: Result<T, ApiError>)
    ensures r.Success? <==> resp.Response? && IsOk(resp.status)
    ensures r.Success? ==> r.value == resp.body
    ensures resp.Response? && !IsOk(resp.status) ==> r == Failure(HttpStatus(resp.status))
    ensures resp.NetworkFailure? ==> r == Failure(Thrown(resp.message))
  {
    match resp
    case NetworkFailure(m) => Failure(Thrown(m))
    case Response(status, body) => if IsOk(status) then Success(body) else Failure(HttpStatus(status))
  }

  /** The `message` of the thrown error, which the pages display. */
  function ErrorMessage(e: ApiError): (msg: string)
    ensures e.HttpStatus? ==> StripPrefix(msg, "HTTP ") == Some(DecimalString(e.status))
    ensures e.HttpStatus? ==> StatusOfMessage(msg) == Some(e.status)
    ensures e.Thrown? ==> msg == e.message
  {
    match e
    case HttpStatus(s) =>
      StripPrefixOf("HTTP ", DecimalString(s));
      DecimalRoundTrip(s);
      "HTTP " + DecimalString(s)
    case Thrown(m) => m
  }

  /** Reads a status code back out of an `HTTP <status>` message. */
  function StatusOfMessage(msg: string): Option<nat> {
    match StripPrefix(msg, "HTTP ")
    case Some(digits) => if digits != "" && AllDigits(digits) then Some(DecimalValue(digits)) else None
    case None => None
  }
}
