/**
The user service as a cache-aside client. `Serve` says what a request does to
the users table and the cache, `ServeDirectly` what the same request does in a
service that has no cache; over any run of whole requests with fresh user ids
the two cannot be told apart.
*/
module UserCache {
  import opened Common
  import opened Platform

  datatype User = User(id: string, name: string, email: string, createdAt: string)

  /** `fault` is the simulated database error, `evicted` a forced cache miss;
      `body` is None when the request does not decode. */
  datatype Request =
    | GetUser(id: string, fault: bool, evicted: bool)
    | CreateUser(id: string, body: Option<Body>, createdAt: string, fault: bool)
    | UpdateUser(id: string, body: Option<Body>, fault: bool)

  datatype Body = Body(name: string, email: string)

  datatype Reply = Ok(user: User) | Created(user: User) | NotFound | BadRequest | ServerError

  datatype Service = Service(users: map<string, User>, cache: map<string, User>)

  function Key(id: string): string { "user:" + id }

  lemma KeyInjective(a: string, b: string)
    requires Key(a) == Key(b)
    ensures a == b
  {
    assert a == Key(a)[5..] && b == Key(b)[5..];
  }

  function Merge(u: User, b: Body): User {
    u.(name := if b.name != "" then b.name else u.name, email := if b.email != "" then b.email else u.email)
  }

  // ---------- without a cache ----------

  function ServeDirectly(users: map<string, User>, r: Request): (map<string, User>, Reply) {
    match r
    case GetUser(id, fault, _) =>
      if fault then (users, ServerError)
      else if id in users then (users, Ok(users[id])) else (users, NotFound)
    case CreateUser(id, body, createdAt, fault) =>
      if fault then (users, ServerError)
      else if body == None then (users, BadRequest)
      else
        var u := User(id, body.value.name, body.value.email, createdAt);
        (users[id := u], Created(u))
    case UpdateUser(id, body, fault) =>
      if fault then (users, ServerError)
      else if id !in users then (users, NotFound)
      else if body == None then (users, BadRequest)
      else (users[id := Merge(users[id], body.value)], Ok(Merge(users[id], body.value)))
  }

  // ---------- with the cache in front ----------

  function Serve(s: Service, r: Request): (Service, Reply) {
    match r
    case GetUser(id, fault, evicted) =>
      if fault then (s, ServerError)
      else if !evicted && Key(id) in s.cache then (s, Ok(s.cache[Key(id)]))
      else if id in s.users then (s.(cache := s.cache[Key(id) := s.users[id]]), Ok(s.users[id]))
      else (s, NotFound)
    case CreateUser(_, _, _, _) =>
      var (users, reply) := ServeDirectly(s.users, r);
      (s.(users := users), reply)
    case UpdateUser(id, _, _) =>
      var (users, reply) := ServeDirectly(s.users, r);
      (Service(users, if reply.Ok? then s.cache - {Key(id)} else s.cache), reply)
  }

  /** Every cached entry equals the database record. */
  ghost predicate Coherent(s: Service) {
    forall id :: Key(id) in s.cache ==> id in s.users && s.cache[Key(id)] == s.users[id]
  }

  predicate FreshId(s: Service, r: Request) {
    r.CreateUser? ==> r.id !in s.users
  }

  lemma ServeKeepsCoherence(s: Service, r: Request)
    requires Coherent(s) && FreshId(s, r)
    ensures Coherent(Serve(s, r).0)
    ensures Serve(s, r).0.users == ServeDirectly(s.users, r).0
    ensures Serve(s, r).1 == ServeDirectly(s.users, r).1
  {
    var s' := Serve(s, r).0;
    forall id | Key(id) in s'.cache ensures id in s'.users && s'.cache[Key(id)] == s'.users[id] {
      if Key(id) == Key(r.id) { KeyInjective(id, r.id); }
    }
  }

  function Replies(s: Service, rs: seq<Request>): seq<Reply>
    decreases |rs|
  {
    if rs == [] then [] else [Serve(s, rs[0]).1] + Replies(Serve(s, rs[0]).0, rs[1..])
  }

  function DirectReplies(users: map<string, User>, rs: seq<Request>): seq<Reply>
    decreases |rs|
  {
    if rs == [] then []
    else [ServeDirectly(users, rs[0]).1] + DirectReplies(ServeDirectly(users, rs[0]).0, rs[1..])
  }

  predicate FreshIds(s: Service, rs: seq<Request>)
    decreases |rs|
  {
    rs == [] || (FreshId(s, rs[0]) && FreshIds(Serve(s, rs[0]).0, rs[1..]))
  }

  /** The cache is invisible: whatever requests come, whichever reads are forced
      to miss, every reply is the one a service reading its database directly
      would have given. */
  lemma {:induction false} CacheIsTransparent(s: Service, rs: seq<Request>)
    requires Coherent(s) && FreshIds(s, rs)
    ensures Replies(s, rs) == DirectReplies(s.users, rs)
    decreases |rs|
  {
    if rs != [] {
      ServeKeepsCoherence(s, rs[0]);
      CacheIsTransparent(Serve(s, rs[0]).0, rs[1..]);
    }
  }

  /** Why ids must be fresh: creating a user keeps the cache coherent if and only
      if no different record is cached under the same id. */
  lemma CreateKeepsCoherenceIff(s: Service, id: string, body: Body, createdAt: string)
    requires Coherent(s)
    ensures Coherent(Serve(s, CreateUser(id, Some(body), createdAt, false)).0) <==>
            Key(id) !in s.cache || s.cache[Key(id)] == User(id, body.name, body.email, createdAt)
  {
    var s' := Serve(s, CreateUser(id, Some(body), createdAt, false)).0;
    if Key(id) !in s.cache || s.cache[Key(id)] == User(id, body.name, body.email, createdAt) {
      forall k | Key(k) in s'.cache ensures k in s'.users && s'.cache[Key(k)] == s'.users[k] { }
    } else {
      assert Key(id) in s'.cache && s'.cache[Key(id)] != s'.users[id];
    }
  }

  // ---------- what is acknowledged is stored ----------

  function Run(s: Service, rs: seq<Request>): Service
    decreases |rs|
  {
    if rs == [] then s else Run(Serve(s, rs[0]).0, rs[1..])
  }

  /** The last reply of a run is what the service answers where the run before it has
      led. */
  lemma {:induction false} LastReplyIsAfterTheRun(s: Service, rs: seq<Request>, r: Request)
    ensures Replies(s, rs + [r]) == Replies(s, rs) + [Serve(Run(s, rs), r).1]
    decreases |rs|
  {
    if rs == [] {
      assert rs + [r] == [r] && [r][1..] == [];
    } else {
      assert (rs + [r])[1..] == rs[1..] + [r];
      LastReplyIsAfterTheRun(Serve(s, rs[0]).0, rs[1..], r);
    }
  }

  /** The request is about changing this user. */
  predicate Changes(r: Request, id: string) { (r.UpdateUser? || r.CreateUser?) && r.id == id }

  predicate Unchanging(rs: seq<Request>, id: string) {
    forall i :: 0 <= i < |rs| ==> !Changes(rs[i], id)
  }

  lemma {:induction false} RecordStays(s: Service, rs: seq<Request>, id: string)
    requires Coherent(s) && FreshIds(s, rs) && Unchanging(rs, id)
    ensures Coherent(Run(s, rs))
    ensures id in Run(s, rs).users <==> id in s.users
    ensures id in s.users ==> Run(s, rs).users[id] == s.users[id]
    decreases |rs|
  {
    if rs != [] {
      assert !Changes(rs[0], id);
      ServeKeepsCoherence(s, rs[0]);
      OtherRecordsStay(s, rs[0], id);
      assert forall i :: 0 <= i < |rs[1..]| ==> rs[1..][i] == rs[i + 1];
      RecordStays(Serve(s, rs[0]).0, rs[1..], id);
    }
  }

  /** A request changes no record but that of the user it is about, and none at all
      if it is refused or only reads. */
  lemma OtherRecordsStay(s: Service, r: Request, id: string)
    requires Coherent(s)
    ensures var s', reply := Serve(s, r).0, Serve(s, r).1;
      && (!Changes(r, id) ==>
            (id in s'.users <==> id in s.users) && (id in s.users ==> s'.users[id] == s.users[id]))
      && (reply == NotFound || reply == BadRequest || reply == ServerError || r.GetUser? ==> s'.users == s.users)
  {
  }

  /** A get that no fault hits answers with the record, whether it is forced to miss
      or not. */
  lemma GetAnswersTheRecord(s: Service, id: string, evicted: bool)
    requires Coherent(s)
    ensures Serve(s, GetUser(id, false, evicted)).1 == if id in s.users then Ok(s.users[id]) else NotFound
  {
    ServeKeepsCoherence(s, GetUser(id, false, evicted));
  }

  /** An acknowledged update is stored. After it, any run in which nobody else
      updates or creates the user answers a get with the name and email of the
      update, or the earlier ones where it gave none, and who the user is stays
      as it was. */
  lemma AcknowledgedUpdateIsServed(
      s: Service, id: string, body: Option<Body>, fault: bool, rs: seq<Request>, evicted: bool)
    requires Coherent(s) && FreshIds(Serve(s, UpdateUser(id, body, fault)).0, rs) && Unchanging(rs, id)
    requires Serve(s, UpdateUser(id, body, fault)).1.Ok?
    ensures body.Some? && !fault && id in s.users
    ensures var before := s.users[id];
      var got := Serve(Run(Serve(s, UpdateUser(id, body, fault)).0, rs), GetUser(id, false, evicted)).1;
      && got == Serve(s, UpdateUser(id, body, fault)).1
      && got.user.id == before.id && got.user.createdAt == before.createdAt
      && got.user.name == (if body.value.name == "" then before.name else body.value.name)
      && got.user.email == (if body.value.email == "" then before.email else body.value.email)
  {
    var s1 := Serve(s, UpdateUser(id, body, fault)).0;
    ServeKeepsCoherence(s, UpdateUser(id, body, fault));
    RecordStays(s1, rs, id);
    GetAnswersTheRecord(Run(s1, rs), id, evicted);
  }

  /** So is an acknowledged creation, with exactly what it was asked for. */
  lemma AcknowledgedCreationIsServed(
      s: Service, id: string, body: Option<Body>, createdAt: string, fault: bool, rs: seq<Request>, evicted: bool)
    requires Coherent(s) && id !in s.users && Unchanging(rs, id)
    requires FreshIds(Serve(s, CreateUser(id, body, createdAt, fault)).0, rs)
    requires Serve(s, CreateUser(id, body, createdAt, fault)).1.Created?
    ensures body.Some? && !fault
    ensures Serve(Run(Serve(s, CreateUser(id, body, createdAt, fault)).0, rs), GetUser(id, false, evicted)).1
         == Ok(User(id, body.value.name, body.value.email, createdAt))
  {
    var s1 := Serve(s, CreateUser(id, body, createdAt, fault)).0;
    ServeKeepsCoherence(s, CreateUser(id, body, createdAt, fault));
    RecordStays(s1, rs, id);
    GetAnswersTheRecord(Run(s1, rs), id, evicted);
  }

  /** When a request is refused, and how: by a fault first, then for a missing user,
      then for a body that does not decode. */
  lemma WhoIsRefused(s: Service, r: Request)
    requires Coherent(s)
    ensures Serve(s, r).1 == ServerError <==> r.fault
    ensures Serve(s, r).1 == NotFound <==> !r.fault && !r.CreateUser? && r.id !in s.users
    ensures Serve(s, r).1 == BadRequest <==>
            !r.fault && !r.GetUser? && r.body == None && (r.UpdateUser? ==> r.id in s.users)
  {
    assert Key(r.id) in s.cache ==> r.id in s.users;
  }

  // ---------- the handlers ----------

  class UserService {
    const db: DB<User>
    const cache: Cache<User>

    constructor ()
      ensures fresh(db) && fresh(cache) && State() == Service(map[], map[])
    {
      db := new DB<User>();
      cache := new Cache<User>();
    }

    function State(): Service
      reads db, cache
    {
      Service(TableOf(db.data, "users"), cache.store)
    }

    method HandleGet(id: string, fault: bool, evicted: bool) returns (reply: Reply)
      modifies cache
      ensures (State(), reply) == Serve(old(State()), GetUser(id, fault, evicted))
    {
      if fault { return ServerError; }
      var hit := cache.Get(Key(id), evicted);
      if hit.Some? { return Ok(hit.value); }
      var user := db.Get("users", id);
      if user == None { return NotFound; }
      cache.Set(Key(id), user.value);
      return Ok(user.value);
    }

    method HandleCreate(id: string, body: Option<Body>, createdAt: string, fault: bool) returns (reply: Reply)
      modifies db
      ensures (State(), reply) == Serve(old(State()), CreateUser(id, body, createdAt, fault))
    {
      if fault { return ServerError; }
      if body == None { return BadRequest; }
      var user := User(id, body.value.name, body.value.email, createdAt);
      db.Insert("users", id, user);
      return Created(user);
    }

    method HandleUpdate(id: string, body: Option<Body>, fault: bool) returns (reply: Reply)
      modifies db, cache
      ensures (State(), reply) == Serve(old(State()), UpdateUser(id, body, fault))
    {
      if fault { return ServerError; }
      var existing := db.Get("users", id);
      if existing == None { return NotFound; }
      if body == None { return BadRequest; }
      var user := existing.value;
      if body.value.name != "" { user := user.(name := body.value.name); }
      if body.value.email != "" { user := user.(email := body.value.email); }
      var ok := db.Update("users", id, user);
      if !ok { return ServerError; }
      cache.Delete(Key(id));
      return Ok(user);
    }
  }
}
