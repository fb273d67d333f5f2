/** The CRUD endpoint: an index of ids in memory and the files it describes. */
module CrudHandlers {

  type Json = string

  datatype Body = NotJson | Parsed(json: Json)

  datatype Verb = Post | Get | Put | Delete | OtherVerb

  /** id: 0 if the URL names none, -1 if it names an invalid one, otherwise the number named. */
  datatype Request = Request(verb: Verb, entity: string, id: int, body: Body)

  datatype Reply = BadRequest(reason: string) | NotFound(reason: string)
                 | Created(id: int) | Updated(id: int) | Found(json: Json) | Deleted(id: int)
                 | Listed(text: string) | MethodNotAllowed | OutOfRange

  // ----- Paths -----

  function DecimalDigit(n: nat): char
    requires n < 10
  {
    '0' + (n as char)
  }

  function Decimal(n: nat): string {
    if n < 10 then [DecimalDigit(n)] else Decimal(n / 10) + [DecimalDigit(n % 10)]
  }

  predicate SlashFree(s: string) { forall i :: 0 <= i < |s| ==> s[i] != '/' }

  lemma {:induction false} DecimalSlashFree(n: nat)
    ensures SlashFree(Decimal(n)) && Decimal(n) != []
  {
    if n >= 10 {
      DecimalSlashFree(n / 10);
    }
  }

  lemma {:induction false} DecimalInjective(m: nat, n: nat)
    ensures Decimal(m) == Decimal(n) ==> m == n
  {
    DecimalSlashFree(m / 10);
    DecimalSlashFree(n / 10);
    LastDigit(m);
    LastDigit(n);
    if m >= 10 && n >= 10 {
      DecimalInjective(m / 10, n / 10);
    }
  }

  lemma LastDigit(n: nat)
    ensures Decimal(n) != [] && Decimal(n)[|Decimal(n)| - 1] == DecimalDigit(n % 10)
    ensures n >= 10 ==> Decimal(n)[..|Decimal(n)| - 1] == Decimal(n / 10)
  {
  }

  /** What a string of digits says in base ten. */
  function ReadDecimal(s: string): int {
    if s == [] then 0 else 10 * ReadDecimal(s[..|s| - 1]) + (s[|s| - 1] as int - '0' as int)
  }

  /** The decimal text of a number is digits, says that number, and has no leading zero. */
  lemma {:induction false} DecimalReads(n: nat)
    ensures ReadDecimal(Decimal(n)) == n && Decimal(n) != []
    ensures forall i :: 0 <= i < |Decimal(n)| ==> '0' <= Decimal(n)[i] <= '9'
    ensures n > 0 ==> Decimal(n)[0] != '0'
  {
    LastDigit(n);
    if n >= 10 {
      DecimalReads(n / 10);
    } else {
      assert ReadDecimal(Decimal(n)[..0]) == 0;
    }
  }

  function FilePath(dataPath: string, entity: string, id: nat): string { dataPath + entity + "/" + Decimal(id) }

  /** Different resources never share a file. */
  lemma PathInjective(dataPath: string, e: string, i: nat, f: string, j: nat)
    requires SlashFree(e) && SlashFree(f)
    ensures FilePath(dataPath, e, i) == FilePath(dataPath, f, j) ==> e == f && i == j
  {
    hide Decimal, SlashFree;
    SlashSeparates(dataPath, e, i, f, j);
    SlashSeparates(dataPath, f, j, e, i);
    DecimalInjective(i, j);
    PathParts(dataPath, e, i);
    PathParts(dataPath, f, j);
  }

  lemma PathParts(dataPath: string, e: string, i: nat)
    ensures var p, d := FilePath(dataPath, e, i), |dataPath|;
            |p| > d + |e| && p[d..d + |e|] == e && p[d + |e| + 1..] == Decimal(i)
  {
    hide Decimal;
  }

  lemma SlashSeparates(dataPath: string, e: string, i: nat, f: string, j: nat)
    requires SlashFree(f)
    ensures |e| < |f| ==> FilePath(dataPath, e, i) != FilePath(dataPath, f, j)
  {
    hide Decimal;
    if |e| < |f| {
      var d := |dataPath|;
      assert FilePath(dataPath, e, i)[d + |e|] == '/';
      assert FilePath(dataPath, f, j)[d + |e|] == f[|e|];
    }
  }

  /** The part of the URL after the location, up to the next slash. */
  function GetEntity(location: string, url: string): (entity: string)
    ensures SlashFree(entity)
    ensures entity != "" ==> location + entity <= url && (|location + entity| == |url| || url[|location + entity|] == '/')
  {
    if location <= url then BeforeSlash(url[|location|..]) else ""
  }

  function BeforeSlash(s: string): (t: string)
    ensures t <= s && SlashFree(t) && (t == s || s[|t|] == '/')
  {
    if s == [] || s[0] == '/' then [] else [s[0]] + BeforeSlash(s[1..])
  }

  // ----- The file store -----

  class MockFilesystem {
    var files: map<string, Json>

    constructor (files: map<string, Json>)
      ensures this.files == files
    {
      this.files := files;
    }

    method CreateDirectory(path: string) returns (ok: bool)
      ensures ok
    {
      return true;
    }

    method WriteFile(path: string, data: Json) returns (ok: bool)
      modifies this
      ensures ok && files == old(files)[path := data]
    {
      files := files[path := data];
      return true;
    }

    method ReadFile(path: string, init: Json) returns (ok: bool, data: Json)
      ensures ok <==> path in files
      ensures data == if path in files then files[path] else init
    {
      if path in files {
        return true, files[path];
      }
      return false, init;
    }

    method DeleteFile(path: string) returns (ok: bool)
      modifies this
      ensures ok <==> path in old(files)
      ensures files == old(files) - {path}
    {
      if path in files {
        files := files - {path};
        return true;
      }
      assert files - {path} == files;
      return false;
    }
  }

  // ----- The store as a client sees it -----

  type Resource = (string, int)

  datatype Store = Store(entities: set<string>, data: map<Resource, Json>)

  ghost predicate LeastFree(data: map<Resource, Json>, e: string, n: int) {
    n >= 1 && (e, n) !in data && forall j :: 1 <= j < n ==> (e, j) in data
  }

  const ENTITY_MISSING: string := "Entity does not exist"
  const NO_MATCH: string := "No matched entity found"
  const BAD_JSON: string := "Invalid JSON request body"

  /** The ids of an entity in ascending order, each once. */
  ghost predicate Ascending(ids: seq<nat>, data: map<Resource, Json>, e: string) {
    && (forall i, j :: 0 <= i < j < |ids| ==> ids[i] < ids[j])
    && (forall i :: i in ids <==> (e, i) in data)
  }

  ghost predicate Holding(data: map<Resource, Json>, e: string) { exists i :: (e, i) in data }

  function CommaText(ids: seq<nat>): string {
    if ids == [] then "" else CommaText(ids[..|ids| - 1]) + ", " + Decimal(ids[|ids| - 1])
  }

  lemma CommaTextLength(ids: seq<nat>)
    ensures if ids == [] then CommaText(ids) == "" else |CommaText(ids)| >= 2
  {
  }

  /** Numbers with a comma and a blank between each two. */
  function Separated(ids: seq<nat>): string {
    if ids == [] then "" else if |ids| == 1 then Decimal(ids[0]) else Decimal(ids[0]) + ", " + Separated(ids[1..])
  }

  /** Cutting off the first separator leaves the numbers separated. */
  lemma {:induction false} CommaTextSeparates(ids: seq<nat>)
    requires ids != []
    ensures |CommaText(ids)| >= 2 && CommaText(ids) == ", " + Separated(ids)
  {
    hide Decimal;
    CommaTextFront(ids);
    if |ids| > 1 {
      CommaTextSeparates(ids[1..]);
    }
  }

  lemma {:induction false} CommaTextFront(ids: seq<nat>)
    requires ids != []
    ensures CommaText(ids) == ", " + Decimal(ids[0]) + CommaText(ids[1..])
  {
    hide Decimal;
    var front, last := ids[..|ids| - 1], ids[|ids| - 1];
    if |ids| > 1 {
      CommaTextFront(front);
      assert front[1..] == ids[1..][..|ids| - 2] && ids[1..][|ids| - 2] == last && front[0] == ids[0];
    } else {
      assert CommaText(ids[1..]) == "" && CommaText(front) == "";
    }
  }

  ghost predicate ListText(data: map<Resource, Json>, e: string, text: string) {
    exists ids :: Ascending(ids, data, e) && |CommaText(ids)| >= 2 && text == "[" + CommaText(ids)[2..] + "]"
  }

  /** A known entity without resources cuts two characters off an empty text, which throws. */
  ghost predicate ServesList(s: Store, e: string, reply: Reply) {
    if e !in s.entities then reply == Listed("[]")
    else if Holding(s.data, e) then reply.Listed? && ListText(s.data, e, reply.text)
    else reply == OutOfRange
  }

  /** What one request may do to the store, and the reply that goes with it. */
  ghost predicate Serves(s: Store, r: Request, s': Store, reply: Reply) {
    var key := (r.entity, r.id);
    if r.entity == "" then s' == s && reply == BadRequest("Invalid entity")
    else if r.id == -1 then s' == s && reply == BadRequest("Invalid id")
    else match r.verb
      case Post => ServesCreate(s, r, s', reply)
      case OtherVerb => s' == s && reply == MethodNotAllowed
      case Get =>
        s' == s && if r.id == 0 then ServesList(s, r.entity, reply)
                   else reply == (if r.entity !in s.entities then NotFound(ENTITY_MISSING)
                                  else if key !in s.data then NotFound("Invalid id specified in CRUD retrieve")
                                  else Found(s.data[key]))
      case Put =>
        if r.id == 0 then s' == s && reply == BadRequest("No id specified in CRUD update")
        else if r.entity !in s.entities then s' == s && reply == NotFound(NO_MATCH)
        else if r.body.NotJson? then s' == s && reply == BadRequest(BAD_JSON)
        else s' == s.(data := s.data[key := r.body.json]) && reply == if key in s.data then Updated(r.id) else Created(r.id)
      case Delete =>
        if r.entity !in s.entities then s' == s && reply == BadRequest("Invalid entity specified in CRUD delete")
        else if key !in s.data then s' == s && reply == NotFound("Invalid id specified in CRUD delete")
        else s' == s.(data := s.data - {key}) && reply == Deleted(r.id)
  }

  /** An endpoint without a data path refuses everything. */
  ghost predicate ServedAt(dataPath: string, s: Store, r: Request, s': Store, reply: Reply) {
    if r.entity != "" && dataPath == "" then s' == s && reply == BadRequest("Invalid data path") else Serves(s, r, s', reply)
  }

  /** A create that names an id is refused, but only after the entity has been made known. */
  ghost predicate ServesCreate(s: Store, r: Request, s': Store, reply: Reply) {
    if r.body.NotJson? then s' == s && reply == BadRequest(BAD_JSON)
    else if r.id != 0 then
      s' == s.(entities := s.entities + {r.entity}) && reply == BadRequest("Id specified in CRUD create")
    else
      && reply.Created? && LeastFree(s.data, r.entity, reply.id)
      && s' == Store(s.entities + {r.entity}, s.data[(r.entity, reply.id) := r.body.json])
  }

  /** Main result: listing an entity throws exactly when it is known but holds nothing, as after its last delete. */
  lemma ListThrowsIff(s: Store, r: Request, s': Store, reply: Reply)
    requires Serves(s, r, s', reply) && r.verb == Get && r.id == 0 && r.entity != ""
    ensures reply == OutOfRange <==> r.entity in s.entities && !Holding(s.data, r.entity)
  {
  }

  lemma ListThrows()
    ensures Serves(Store({"Shoes"}, map[]), Request(Get, "Shoes", 0, NotJson), Store({"Shoes"}, map[]), OutOfRange)
  {
    assert "Shoes" in {"Shoes"};
  }

  /** The request that is refused although it changes the store. */
  predicate MakesKnown(s: Store, r: Request) {
    r.verb == Post && r.body.Parsed? && r.id > 0 && r.entity != "" && r.entity !in s.entities
  }

  /** Main result: a refused request leaves the store alone, except exactly a create that names an id for a new entity. */
  lemma RefusedLeavesStore(s: Store, r: Request, s': Store, reply: Reply)
    requires Serves(s, r, s', reply) && r.id >= -1 && (reply.BadRequest? || reply.NotFound?)
    ensures s' == s <==> !MakesKnown(s, r)
    ensures MakesKnown(s, r) ==> s' == s.(entities := s.entities + {r.entity})
  {
    hide LeastFree;
    if MakesKnown(s, r) {
      assert r.entity in s'.entities;
    }
    assert r.entity in s.entities ==> s.entities + {r.entity} == s.entities;
  }

  lemma RefusedCreateLeavesEntity()
    ensures Serves(Store({}, map[]), Request(Post, "Shoes", 7, Parsed("{}")), Store({"Shoes"}, map[]),
                   BadRequest("Id specified in CRUD create"))
  {
    assert {} + {"Shoes"} == {"Shoes"};
  }

  // ----- Whole runs -----

  datatype Event = Event(request: Request, reply: Reply)

  /** What one exchange says about the resources, read off the request and the reply alone. */
  function Effect(data: map<Resource, Json>, ev: Event): map<Resource, Json> {
    match (ev.request.body, ev.reply)
    case (Parsed(json), Created(id)) => data[(ev.request.entity, id) := json]
    case (Parsed(json), Updated(id)) => data[(ev.request.entity, id) := json]
    case (_, Deleted(id)) => data - {(ev.request.entity, id)}
    case _ => data
  }

  /** The JSON last written to each resource that has not been deleted since. */
  function LastWritten(start: map<Resource, Json>, events: seq<Event>): map<Resource, Json> {
    if events == [] then start else Effect(LastWritten(start, events[..|events| - 1]), events[|events| - 1])
  }

  /** Consecutive requests, each served in the state that the one before left. */
  ghost predicate Serial(states: seq<Store>, events: seq<Event>) {
    && |states| == |events| + 1
    && forall i :: 0 <= i < |events| ==> Serves(states[i], events[i].request, states[i + 1], events[i].reply)
  }

  lemma {:induction false} StoreIsLastWritten(states: seq<Store>, events: seq<Event>, k: nat)
    requires Serial(states, events) && k <= |events|
    ensures states[k].data == LastWritten(states[0].data, events[..k])
  {
    if k == 0 {
      assert events[..0] == [];
    } else {
      StoreIsLastWritten(states, events, k - 1);
      assert events[..k][..k - 1] == events[..k - 1];
      EffectOfServing(states[k - 1], events[k - 1], states[k]);
    }
  }

  lemma EffectOfServing(s: Store, ev: Event, s': Store)
    requires Serves(s, ev.request, s', ev.reply)
    ensures s'.data == Effect(s.data, ev)
  {
    hide LeastFree;
  }

  /** Every resource belongs to a known entity. */
  ghost predicate Known(s: Store) { forall e, i :: (e, i) in s.data ==> e in s.entities }

  /** A create with a JSON body makes its entity known, also when it is refused for naming an id. */
  predicate MakesEntity(r: Request, e: string) {
    r.verb == Post && r.entity == e && e != "" && r.id != -1 && r.body.Parsed?
  }

  /** An entity is known from the start or from an earlier create; what happens to its resources does not matter. */
  ghost predicate KnownAfter(start: set<string>, events: seq<Event>, e: string) {
    e in start || exists i :: 0 <= i < |events| && MakesEntity(events[i].request, e)
  }

  /** The one reply that the resources held, and whether the entity is known, allow; only a listing or a created id is
      described by what it must satisfy. */
  ghost predicate Honest(data: map<Resource, Json>, known: bool, ev: Event) {
    var r, key, reply := ev.request, (ev.request.entity, ev.request.id), ev.reply;
    if r.entity == "" || r.id == -1 then reply.BadRequest?
    else match r.verb
      case Post => if r.body.Parsed? && r.id == 0 then reply.Created? && LeastFree(data, r.entity, reply.id) else reply.BadRequest?
      case Get =>
        if r.id != 0 then (if key in data then reply == Found(data[key]) else reply.NotFound?)
        else if Holding(data, r.entity) then reply.Listed? && ListText(data, r.entity, reply.text)
        else reply == if known then OutOfRange else Listed("[]")
      case Put =>
        if r.id == 0 then reply.BadRequest?
        else if !known then reply.NotFound?
        else if r.body.NotJson? then reply.BadRequest?
        else reply == if key in data then Updated(r.id) else Created(r.id)
      case Delete => if key in data then reply == Deleted(r.id) else if known then reply.NotFound? else reply.BadRequest?
      case OtherVerb => reply == MethodNotAllowed
  }

  lemma ServedHonestly(s: Store, ev: Event, s': Store)
    requires Known(s) && Serves(s, ev.request, s', ev.reply)
    ensures Known(s') && Honest(s.data, ev.request.entity in s.entities, ev)
  {
    hide LeastFree;
  }

  lemma EntitiesServed(s: Store, r: Request, s': Store, reply: Reply, e: string)
    requires Serves(s, r, s', reply)
    ensures e in s'.entities <==> e in s.entities || MakesEntity(r, e)
  {
    hide LeastFree;
  }

  lemma {:induction false} StaysKnown(states: seq<Store>, events: seq<Event>, k: nat)
    requires Serial(states, events) && Known(states[0]) && k <= |events|
    ensures Known(states[k])
  {
    hide Known, Serves;
    if k > 0 {
      StaysKnown(states, events, k - 1);
      ServedHonestly(states[k - 1], events[k - 1], states[k]);
    }
  }

  /** In every run the known entities are those of the start and those of the creates so far. */
  lemma {:induction false} EntitiesOfRun(states: seq<Store>, events: seq<Event>, k: nat, e: string)
    requires Serial(states, events) && k <= |events|
    ensures e in states[k].entities <==> KnownAfter(states[0].entities, events[..k], e)
  {
    hide Serves, MakesEntity;
    if k > 0 {
      EntitiesOfRun(states, events, k - 1, e);
      EntitiesServed(states[k - 1], events[k - 1].request, states[k], events[k - 1].reply, e);
      var before, now := events[..k - 1], events[..k];
      assert now[k - 1] == events[k - 1];
      assert forall i :: 0 <= i < k - 1 ==> before[i] == now[i];
    }
  }

  /** Main result: in every run, each reply is the one that the exchanges before it call for. */
  lemma RunIsHonest(states: seq<Store>, events: seq<Event>, k: nat)
    requires Serial(states, events) && Known(states[0]) && k < |events|
    ensures Honest(LastWritten(states[0].data, events[..k]),
                   KnownAfter(states[0].entities, events[..k], events[k].request.entity), events[k])
  {
    hide Known, Honest, Serves, KnownAfter;
    StaysKnown(states, events, k);
    StoreIsLastWritten(states, events, k);
    EntitiesOfRun(states, events, k, events[k].request.entity);
    ServedHonestly(states[k], events[k], states[k + 1]);
  }

  // ----- Reading what was written -----

  /** The exchange has stored the JSON as the resource. */
  predicate Writes(ev: Event, key: Resource, json: Json) {
    && ev.request.body == Parsed(json) && ev.request.entity == key.0
    && (ev.reply == Created(key.1) || ev.reply == Updated(key.1))
  }

  predicate Concerns(ev: Event, key: Resource) {
    ev.request.entity == key.0 && (ev.reply == Created(key.1) || ev.reply == Updated(key.1) || ev.reply == Deleted(key.1))
  }

  lemma {:induction false} WrittenStays(start: map<Resource, Json>, events: seq<Event>, i: nat, k: nat, key: Resource, json: Json)
    requires i < k <= |events| && Writes(events[i], key, json)
    requires forall j :: i < j < k ==> !Concerns(events[j], key)
    ensures key in LastWritten(start, events[..k]) && LastWritten(start, events[..k])[key] == json
  {
    assert events[..k][..k - 1] == events[..k - 1] && events[..k][k - 1] == events[k - 1];
    hide LastWritten;
    LastStepWritten(start, events[..k]);
    if i < k - 1 {
      WrittenStays(start, events, i, k - 1, key, json);
      assert !Concerns(events[k - 1], key);
    }
  }

  lemma LastStepWritten(start: map<Resource, Json>, events: seq<Event>)
    requires events != []
    ensures LastWritten(start, events) == Effect(LastWritten(start, events[..|events| - 1]), events[|events| - 1])
  {
  }

  /** Main result: a retrieve returns the JSON of the last exchange that stored the resource, unless it was deleted since. */
  lemma ReadsLastWrite(states: seq<Store>, events: seq<Event>, i: nat, k: nat, json: Json)
    requires Serial(states, events) && Known(states[0]) && i < k < |events|
    requires events[k].request.verb == Get && events[k].request.id > 0 && events[k].request.entity != ""
    requires Writes(events[i], (events[k].request.entity, events[k].request.id), json)
    requires forall j :: i < j < k ==> !Concerns(events[j], (events[k].request.entity, events[k].request.id))
    ensures events[k].reply == Found(json)
  {
    hide Known, Serves, LastWritten, Writes, Concerns, KnownAfter, LeastFree, ListText;
    RunIsHonest(states, events, k);
    WrittenStays(states[0].data, events, i, k, (events[k].request.entity, events[k].request.id), json);
  }

  // ----- The endpoint -----

  predicate Min(ids: set<int>, m: int) { m in ids && forall x :: x in ids ==> m <= x }

  lemma NonEmpty(ids: set<int>)
    ensures ids != {} ==> exists x :: x in ids
  {
    if !exists x :: x in ids {
      assert ids == {};
    }
  }

  lemma {:induction false} HasMin(ids: set<int>)
    requires ids != {}
    ensures exists m :: Min(ids, m)
  {
    NonEmpty(ids);
    var x :| x in ids;
    if ids == {x} {
      assert Min(ids, x);
    } else {
      var rest := ids - {x};
      assert |rest| == |ids| - 1 && ids == rest + {x};
      HasMin(rest);
      var m :| Min(rest, m);
      assert Min(ids, if x < m then x else m);
    }
  }

  ghost predicate LeastFreeId(ids: set<int>, n: int) { n >= 1 && n !in ids && forall j :: 1 <= j < n ==> j in ids }

  /** What the scan of handle_create over the ordered set finds: an id below 1 stops it at once. */
  ghost predicate Scanned(ids: set<int>, n: int) {
    if exists i :: i in ids && i < 1 then n == 1 else LeastFreeId(ids, n)
  }

  /** Main result: the scan finds the least free positive id exactly if no id is below 1 or 1 is free. */
  lemma ScanIsRightIff(ids: set<int>, n: int)
    requires Scanned(ids, n)
    ensures LeastFreeId(ids, n) <==> (forall i :: i in ids ==> i >= 1) || 1 !in ids
  {
    if i :| i in ids && i < 1 {
      assert n == 1;
    }
  }

  lemma ScanMisses()
    ensures Scanned({0, 1}, 1) && !LeastFreeId({0, 1}, 1) && LeastFreeId({0, 1}, 2)
  {
    assert 0 in {0, 1};
  }

  method SmallestAvailable(ids: set<int>) returns (n: int)
    ensures Scanned(ids, n)
  {
    n := 1;
    var rest := ids;
    while rest != {}
      invariant n >= 1 && rest == (set i | i in ids && (i >= n || i < 1))
      invariant n > 1 ==> forall i :: i in ids ==> i >= 1
      invariant forall j :: 1 <= j < n ==> j in ids
      decreases rest
    {
      HasMin(rest);
      ghost var m :| Min(rest, m);
      assert m in rest && Min(rest, m);
      var itr :| itr in rest && Min(rest, itr);
      if itr == n {
        n := n + 1;
        rest := rest - {itr};
      } else {
        break;
      }
    }
    assert n in ids ==> n in rest;
  }

  ghost predicate Holds(files: map<string, Json>, path: string, json: Json) { path in files && files[path] == json }

  /** The index holds an id exactly when its file exists, and both tell what the store contains. */
  ghost predicate Agrees(store: Store, entities: map<string, set<int>>, files: map<string, Json>, dataPath: string) {
    && store.entities == entities.Keys
    && (forall e, i :: (e, i) in store.data <==> e in entities && i in entities[e])
    && (forall e, i :: (e, i) in store.data ==> SlashFree(e) && i >= 1)
    && (forall e, i :: SlashFree(e) && i >= 1 ==> (FilePath(dataPath, e, i) in files <==> (e, i) in store.data))
    && (forall e, i :: SlashFree(e) && i >= 1 && (e, i) in store.data
                       ==> Holds(files, FilePath(dataPath, e, i), store.data[(e, i)]))
  }

  lemma PathsApart(dataPath: string, e: string, i: nat)
    requires SlashFree(e)
    ensures forall f, j: nat :: SlashFree(f) && FilePath(dataPath, f, j) == FilePath(dataPath, e, i) ==> f == e && j == i
  {
    hide FilePath;
    forall f, j: nat | SlashFree(f) && FilePath(dataPath, f, j) == FilePath(dataPath, e, i)
      ensures f == e && j == i
    {
      PathInjective(dataPath, f, j, e, i);
    }
  }

  /** Writing one resource in the store, the index and its file keeps the three in agreement. */
  lemma AgreesAfterWrite(store: Store, entities: map<string, set<int>>, files: map<string, Json>, dataPath: string,
                         e: string, i: int, json: Json)
    requires Agrees(store, entities, files, dataPath) && SlashFree(e) && i >= 1 && e in entities
    ensures Agrees(store.(data := store.data[(e, i) := json]), entities[e := entities[e] + {i}],
                   files[FilePath(dataPath, e, i) := json], dataPath)
  {
    PathsApart(dataPath, e, i);
    hide FilePath, SlashFree;
  }

  lemma AgreesAfterDelete(store: Store, entities: map<string, set<int>>, files: map<string, Json>, dataPath: string,
                          e: string, i: int)
    requires Agrees(store, entities, files, dataPath) && SlashFree(e) && i >= 1 && e in entities
    ensures Agrees(store.(data := store.data - {(e, i)}), entities[e := entities[e] - {i}],
                   files - {FilePath(dataPath, e, i)}, dataPath)
  {
    PathsApart(dataPath, e, i);
    hide FilePath, SlashFree;
  }

  ghost predicate Ordered(order: seq<nat>, ids: set<int>) {
    && (forall i, j :: 0 <= i < j < |order| ==> order[i] < order[j])
    && (forall i :: i in ids <==> i in order)
  }

  lemma OrderedIsAscending(order: seq<nat>, ids: set<int>, data: map<Resource, Json>, e: string)
    requires Ordered(order, ids) && forall i :: i in ids <==> (e, i) in data
    ensures Ascending(order, data, e) && (order != [] <==> Holding(data, e))
  {
    if order != [] {
      assert order[0] in order;
    }
  }

  lemma OrderedSnoc(order: seq<nat>, all: set<int>, rest: set<int>, m: nat)
    requires Ordered(order, all - rest) && rest <= all && Min(rest, m)
    requires forall x, y :: x in order && y in rest ==> x < y
    ensures Ordered(order + [m], all - (rest - {m}))
    ensures forall x, y :: x in order + [m] && y in rest - {m} ==> x < y
    ensures CommaText(order + [m]) == CommaText(order) + ", " + Decimal(m)
  {
    hide Decimal;
    assert (order + [m])[..|order|] == order;
    forall i, j | 0 <= i < j < |order| + 1
      ensures (order + [m])[i] < (order + [m])[j]
    {
      assert order[i] in order;
    }
  }

  /** The loop of handle_list over the ordered set. */
  method ListIds(ids: set<int>) returns (text: string, ghost order: seq<nat>)
    requires forall i :: i in ids ==> i >= 1
    ensures text == CommaText(order) && Ordered(order, ids)
  {
    hide Min, CommaText, Decimal, Ordered;
    text, order := "", [];
    var rest := ids;
    NothingOrdered(ids);
    while rest != {}
      invariant rest <= ids && text == CommaText(order) && Ordered(order, ids - rest)
      invariant forall x, y :: x in order && y in rest ==> x < y
      decreases rest
    {
      HasMin(rest);
      MinIsIn(rest);
      var itr :| itr in rest && Min(rest, itr);
      OrderedSnoc(order, ids, rest, itr);
      text := text + ", " + Decimal(itr);
      order := order + [itr];
      rest := rest - {itr};
    }
    assert ids - rest == ids;
  }

  lemma NothingOrdered(ids: set<int>)
    ensures Ordered([], ids - ids) && CommaText([]) == ""
  {
  }

  lemma MinIsIn(ids: set<int>)
    ensures (exists m :: Min(ids, m)) ==> exists m :: m in ids && Min(ids, m)
  {
    if m :| Min(ids, m) {
      assert m in ids;
    }
  }

  /** The state shared by the handlers of one endpoint. */
  class Endpoint {
    const dataPath: string
    var entities: map<string, set<int>>
    const fs: MockFilesystem

    ghost var store: Store

    ghost predicate Valid()
      reads this, fs
    {
      Agrees(store, entities, fs.files, dataPath)
    }

    /** Starts from any index, possibly empty, that agrees with the files. */
    constructor (dataPath: string, fs: MockFilesystem, entities: map<string, set<int>>)
      requires forall e, i :: e in entities && i in entities[e] ==> SlashFree(e) && i >= 1
      requires forall e, i :: SlashFree(e) && i >= 1 ==>
                 (FilePath(dataPath, e, i) in fs.files <==> e in entities && i in entities[e])
      ensures Valid() && this.entities == entities && this.dataPath == dataPath && this.fs == fs
    {
      hide FilePath, SlashFree;
      this.dataPath := dataPath;
      this.fs := fs;
      this.entities := entities;
      store := Store(entities.Keys,
                     map e, i | e in entities && i in entities[e] :: (e, i) := fs.files[FilePath(dataPath, e, i)]);
    }

    lemma ValidIsKnown()
      requires Valid()
      ensures Known(store)
    {
    }

    /** Creates the handler of one request and lets it serve. */
    method Handle(r: Request) returns (reply: Reply)
      requires Valid() && Admitted(r)
      modifies this, fs
      ensures Valid()
      ensures ServedAt(dataPath, old(store), r, store, reply)
      ensures OnlyTouches(old(fs.files), fs.files, dataPath, r.entity)
    {
      var handler := new CrudHandler(this, r.entity, r.id);
      reply := handler.Serve(r.verb, r.body);
    }
  }

  /** A sequence of requests on one endpoint, and what a client sees of it. */
  method ServeAll(endpoint: Endpoint, requests: seq<Request>) returns (events: seq<Event>)
    requires endpoint.Valid() && forall r :: r in requests ==> Admitted(r)
    modifies endpoint, endpoint.fs
    ensures endpoint.Valid()
    ensures |events| == |requests| && forall k :: 0 <= k < |events| ==> events[k].request == requests[k]
    ensures endpoint.dataPath != "" ==>
              forall k :: 0 <= k < |events| ==>
                Honest(LastWritten(old(endpoint.store).data, events[..k]),
                       KnownAfter(old(endpoint.store).entities, events[..k], events[k].request.entity), events[k])
    ensures endpoint.dataPath != "" ==> endpoint.store.data == LastWritten(old(endpoint.store).data, events)
  {
    hide Serves, Honest, Known, LastWritten, KnownAfter;
    events := [];
    ghost var states := [endpoint.store];
    assert Known(endpoint.store) by {
      endpoint.ValidIsKnown();
    }
    for i := 0 to |requests|
      invariant endpoint.Valid() && |events| == i && |states| == i + 1
      invariant endpoint.dataPath != "" ==> Serial(states, events)
      invariant states[0] == old(endpoint.store) && states[i] == endpoint.store
      invariant forall k :: 0 <= k < i ==> events[k].request == requests[k]
    {
      assert requests[i] in requests;
      var reply := endpoint.Handle(requests[i]);
      events := events + [Event(requests[i], reply)];
      states := states + [endpoint.store];
    }
    if endpoint.dataPath != "" {
      forall k | 0 <= k < |events|
        ensures Honest(LastWritten(old(endpoint.store).data, events[..k]),
                       KnownAfter(old(endpoint.store).entities, events[..k], events[k].request.entity), events[k])
      {
        RunIsHonest(states, events, k);
      }
      StoreIsLastWritten(states, events, |events|);
      assert events[..|events|] == events;
    }
  }

  /** What get_entity and get_id deliver. */
  ghost predicate Admitted(r: Request) { SlashFree(r.entity) && r.id >= -1 }

  /** No file changes except those of one entity. */
  ghost predicate OnlyTouches(before: map<string, Json>, after: map<string, Json>, dataPath: string, e: string) {
    forall p :: (forall i :: i >= 1 ==> p != FilePath(dataPath, e, i)) ==>
      (p in before <==> p in after) && (p in before ==> before[p] == after[p])
  }

  lemma WriteTouches(files: map<string, Json>, dataPath: string, e: string, i: nat, json: Json)
    requires i >= 1
    ensures OnlyTouches(files, files[FilePath(dataPath, e, i) := json], dataPath, e)
    ensures OnlyTouches(files, files - {FilePath(dataPath, e, i)}, dataPath, e)
  {
    hide FilePath;
  }

  lemma NothingTouched(files: map<string, Json>, dataPath: string, e: string)
    ensures OnlyTouches(files, files, dataPath, e)
  {
  }

  class CrudHandler {
    const endpoint: Endpoint
    const entity: string
    var id: int

    constructor (endpoint: Endpoint, entity: string, id: int)
      ensures this.endpoint == endpoint && this.entity == entity && this.id == id
    {
      this.endpoint := endpoint;
      this.entity := entity;
      this.id := id;
    }

    method Serve(verb: Verb, body: Body) returns (reply: Reply)
      requires endpoint.Valid() && Admitted(Request(verb, entity, id, body))
      modifies this`id, endpoint, endpoint.fs
      ensures endpoint.Valid()
      ensures ServedAt(endpoint.dataPath, old(endpoint.store), Request(verb, entity, old(id), body), endpoint.store, reply)
      ensures OnlyTouches(old(endpoint.fs.files), endpoint.fs.files, endpoint.dataPath, entity)
    {
      hide FilePath, SlashFree, LeastFree;
      if entity == "" {
        return BadRequest("Invalid entity");
      }
      if endpoint.dataPath == "" {
        return BadRequest("Invalid data path");
      }
      if id == -1 {
        return BadRequest("Invalid id");
      }
      match verb {
        case Post => reply := HandleCreate(body);
        case Get =>
          if id == 0 {
            reply := HandleList();
          } else {
            reply := HandleRetrieve();
          }
        case Put => reply := HandleUpdate(body);
        case Delete => reply := HandleDelete();
        case OtherVerb => reply := MethodNotAllowed;
      }
    }

    /** The index entry and the file of one resource, written together. */
    method Save(json: Json)
      requires endpoint.Valid() && SlashFree(entity) && id >= 1 && entity in endpoint.entities
      modifies endpoint, endpoint.fs
      ensures endpoint.Valid()
      ensures endpoint.store == old(endpoint.store).(data := old(endpoint.store).data[(entity, id) := json])
      ensures OnlyTouches(old(endpoint.fs.files), endpoint.fs.files, endpoint.dataPath, entity)
    {
      hide FilePath, SlashFree, OnlyTouches, Agrees;
      AgreesAfterWrite(endpoint.store, endpoint.entities, endpoint.fs.files, endpoint.dataPath, entity, id, json);
      WriteTouches(endpoint.fs.files, endpoint.dataPath, entity, id, json);
      endpoint.entities := endpoint.entities[entity := endpoint.entities[entity] + {id}];
      var written := endpoint.fs.WriteFile(FilePath(endpoint.dataPath, entity, id), json);
      endpoint.store := endpoint.store.(data := endpoint.store.data[(entity, id) := json]);
    }

    method HandleCreate(body: Body) returns (reply: Reply)
      requires endpoint.Valid() && SlashFree(entity) && id >= 0
      modifies this`id, endpoint, endpoint.fs
      ensures endpoint.Valid()
      ensures ServesCreate(old(endpoint.store), Request(Post, entity, old(id), body), endpoint.store, reply)
      ensures OnlyTouches(old(endpoint.fs.files), endpoint.fs.files, endpoint.dataPath, entity)
    {
      hide FilePath, SlashFree;
      if body.NotJson? {
        return BadRequest(BAD_JSON);
      }
      if entity !in endpoint.entities {
        endpoint.entities := endpoint.entities[entity := {}];
        endpoint.store := endpoint.store.(entities := endpoint.store.entities + {entity});
        var made := endpoint.fs.CreateDirectory(endpoint.dataPath + entity);
      }
      assert endpoint.Valid() && endpoint.store.entities == old(endpoint.store.entities) + {entity};
      if id == 0 {
        id := SmallestAvailable(endpoint.entities[entity]);
        assert forall i :: i in endpoint.entities[entity] <==> (entity, i) in endpoint.store.data;
      } else {
        return BadRequest("Id specified in CRUD create");
      }
      Save(body.json);
      return Created(id);
    }

    method HandleRetrieve() returns (reply: Reply)
      requires endpoint.Valid() && SlashFree(entity) && entity != "" && id >= 1
      ensures Serves(endpoint.store, Request(Get, entity, id, NotJson), endpoint.store, reply)
    {
      hide FilePath, SlashFree;
      if entity !in endpoint.entities {
        return NotFound(ENTITY_MISSING);
      }
      if id !in endpoint.entities[entity] {
        return NotFound("Invalid id specified in CRUD retrieve");
      }
      var found, data := endpoint.fs.ReadFile(FilePath(endpoint.dataPath, entity, id), "null");
      return Found(data);
    }

    /** Lists the ids of the entity in ascending order. */
    method HandleList() returns (reply: Reply)
      requires endpoint.Valid() && SlashFree(entity)
      ensures ServesList(endpoint.store, entity, reply)
    {
      hide FilePath, SlashFree, CommaText, Ordered;
      var listOfIds := "";
      if entity in endpoint.entities {
        assert forall i :: i in endpoint.entities[entity] <==> (entity, i) in endpoint.store.data;
        ghost var order;
        listOfIds, order := ListIds(endpoint.entities[entity]);
        CommaTextLength(order);
        OrderedIsAscending(order, endpoint.entities[entity], endpoint.store.data, entity);
        if |listOfIds| < 2 {
          return OutOfRange;
        }
        listOfIds := listOfIds[2..];
      }
      return Listed("[" + listOfIds + "]");
    }

    method HandleUpdate(body: Body) returns (reply: Reply)
      requires endpoint.Valid() && SlashFree(entity) && entity != "" && id >= 0
      modifies endpoint, endpoint.fs
      ensures endpoint.Valid()
      ensures Serves(old(endpoint.store), Request(Put, entity, id, body), endpoint.store, reply)
      ensures OnlyTouches(old(endpoint.fs.files), endpoint.fs.files, endpoint.dataPath, entity)
    {
      hide FilePath, SlashFree;
      if id == 0 {
        return BadRequest("No id specified in CRUD update");
      }
      if entity !in endpoint.entities {
        return NotFound(NO_MATCH);
      }
      if body.NotJson? {
        return BadRequest(BAD_JSON);
      }
      var idExists := id in endpoint.entities[entity];
      Save(body.json);
      return if idExists then Updated(id) else Created(id);
    }

    method HandleDelete() returns (reply: Reply)
      requires endpoint.Valid() && SlashFree(entity) && entity != "" && id >= 0
      modifies endpoint, endpoint.fs
      ensures endpoint.Valid()
      ensures Serves(old(endpoint.store), Request(Delete, entity, id, NotJson), endpoint.store, reply)
      ensures OnlyTouches(old(endpoint.fs.files), endpoint.fs.files, endpoint.dataPath, entity)
    {
      hide FilePath, SlashFree, OnlyTouches;
      NothingTouched(endpoint.fs.files, endpoint.dataPath, entity);
      if entity !in endpoint.entities {
        return BadRequest("Invalid entity specified in CRUD delete");
      }
      if id !in endpoint.entities[entity] {
        return NotFound("Invalid id specified in CRUD delete");
      }
      AgreesAfterDelete(endpoint.store, endpoint.entities, endpoint.fs.files, endpoint.dataPath, entity, id);
      WriteTouches(endpoint.fs.files, endpoint.dataPath, entity, id, "");
      var deleted := endpoint.fs.DeleteFile(FilePath(endpoint.dataPath, entity, id));
      endpoint.entities := endpoint.entities[entity := endpoint.entities[entity] - {id}];
      endpoint.store := endpoint.store.(data := endpoint.store.data - {(entity, id)});
      return Deleted(id);
    }
  }
}
