/** The coverage cache of tcg/data: a TTL and LRU store behind single-flight
    fetches, as a state machine whose steps run between two awaits. */
module CoverageCache {
  import opened Wrappers

  type Key = nat
  type Span = int
  type Error = int

  datatype Cached = Cached(value: Span, created: real)

  datatype Outcome = Running | Done(result: Cached) | Failed(error: Error)

  /** One fetch and the future its waiters share; `leader` is the task running it. */
  datatype Flight = Flight(key: Key, leader: nat, outcome: Outcome)

  /** How a call was served: from the store (as it stood after `seen` flights), by
      its own fetch, or by a fetch already under way. */
  datatype Role = Hit(cached: Cached, at: real, seen: nat) | Leads(flight: nat) | Waits(flight: nat)

  datatype Answer = Value(span: Span) | Raised(error: Error)

  datatype Task = Task(key: Key, role: Role, answer: Option<Answer>)

  /** An ordered dict: the entries, and their keys oldest first. `uses` stamps the
      last use of every key ever stored; `expired` holds the keys whose last
      departure was a TTL expiry. */
  datatype Shelf = Shelf(entries: map<Key, Cached>, order: seq<Key>, uses: map<Key, nat>, ticks: nat, expired: set<Key>)

  datatype State = State(capacity: nat, ttl: real, now: real, shelf: Shelf, inflight: map<Key, nat>,
                         flights: seq<Flight>, tasks: seq<Task>)

  datatype Event = Request(key: Key, now: real)
                 | Succeed(flight: nat, span: Span, now: real)
                 | Fail(flight: nat, error: Error)
                 | Resume(task: nat)

  // ----- The store ---------------------------------------------------------

  function Drop(order: seq<Key>, key: Key): (r: seq<Key>) {
    if order == [] then []
    else if order[0] == key then Drop(order[1..], key)
    else [order[0]] + Drop(order[1..], key)
  }

  /** Move key to the recent end, whether or not it was there. */
  function Touch(h: Shelf, key: Key): Shelf {
    h.(order := Drop(h.order, key) + [key], uses := h.uses[key := h.ticks], ticks := h.ticks + 1)
  }

  function Expire(h: Shelf, key: Key): Shelf {
    h.(entries := h.entries - {key}, order := Drop(h.order, key), expired := h.expired + {key})
  }

  function GetFresh(h: Shelf, key: Key, now: real, ttl: real): (Shelf, Option<Cached>) {
    if key !in h.entries then (h, None)
    else if now - h.entries[key].created > ttl then (Expire(h, key), None)
    else (Touch(h, key), Some(h.entries[key]))
  }

  function Insert(h: Shelf, key: Key, c: Cached): Shelf {
    Touch(h, key).(entries := h.entries[key := c], expired := h.expired - {key})
  }

  function EvictOldest(h: Shelf): Shelf
    requires h.order != []
  {
    h.(entries := h.entries - {h.order[0]}, order := h.order[1..])
  }

  function Evict(h: Shelf, capacity: nat): Shelf
    decreases |h.order|
  {
    if |h.order| <= capacity then h else Evict(EvictOldest(h), capacity)
  }

  function Put(h: Shelf, key: Key, c: Cached, capacity: nat): Shelf {
    Evict(Insert(h, key, c), capacity)
  }

  // ----- Steps between awaits ----------------------------------------------

  function AnswerOf(o: Outcome): Option<Answer> {
    match o
    case Running => None
    case Done(c) => Some(Value(c.value))
    case Failed(e) => Some(Raised(e))
  }

  /** A call up to its first await. */
  function DoRequest(s: State, key: Key, now: real): State {
    var got := GetFresh(s.shelf, key, now, s.ttl);
    var s1 := s.(shelf := got.0, now := now);
    if got.1.Some? then
      s1.(tasks := s.tasks + [Task(key, Hit(got.1.value, now, |s.flights|), Some(Value(got.1.value.value)))])
    else if key in s.inflight then
      s1.(tasks := s.tasks + [Task(key, Waits(s.inflight[key]), None)])
    else
      s1.(inflight := s.inflight[key := |s.flights|], flights := s.flights + [Flight(key, |s.tasks|, Running)],
          tasks := s.tasks + [Task(key, Leads(|s.flights|), None)])
  }

  /** Flight f is over: its key is free again and its leader has the outcome. */
  function Land(s: State, f: nat, o: Outcome): State
    requires f < |s.flights| && s.flights[f].leader < |s.tasks|
  {
    s.(inflight := s.inflight - {s.flights[f].key}, flights := s.flights[f := s.flights[f].(outcome := o)],
       tasks := s.tasks[s.flights[f].leader := s.tasks[s.flights[f].leader].(answer := AnswerOf(o))])
  }

  function DoSucceed(s: State, f: nat, span: Span, now: real): State
    requires f < |s.flights| && s.flights[f].leader < |s.tasks|
  {
    Land(s.(shelf := Put(s.shelf, s.flights[f].key, Cached(span, now), s.capacity), now := now), f,
         Done(Cached(span, now)))
  }

  function DoResume(s: State, t: nat): State
    requires t < |s.tasks| && s.tasks[t].role.Waits? && s.tasks[t].role.flight < |s.flights|
  {
    s.(tasks := s.tasks[t := s.tasks[t].(answer := AnswerOf(s.flights[s.tasks[t].role.flight].outcome))])
  }

  /** A fetch ends once, a waiter resumes once and after its flight, and the clock
      does not run backwards. */
  predicate Possible(s: State, ev: Event) {
    match ev
    case Request(key, now) => now >= s.now
    case Succeed(f, span, now) => now >= s.now && f < |s.flights| && s.flights[f].outcome.Running?
    case Fail(f, e) => f < |s.flights| && s.flights[f].outcome.Running?
    case Resume(t) =>
      && t < |s.tasks| && s.tasks[t].role.Waits? && s.tasks[t].answer.None?
      && s.tasks[t].role.flight < |s.flights| && !s.flights[s.tasks[t].role.flight].outcome.Running?
  }

  function Next(s: State, ev: Event): State
    requires Inv(s) && Possible(s, ev)
  {
    match ev
    case Request(key, now) => DoRequest(s, key, now)
    case Succeed(f, span, now) => DoSucceed(s, f, span, now)
    case Fail(f, e) => Land(s, f, Failed(e))
    case Resume(t) => DoResume(s, t)
  }

  function Fresh(capacity: nat, ttl: real, now: real): (s: State)
    ensures Inv(s)
  {
    State(capacity, ttl, now, Shelf(map[], [], map[], 0, {}), map[], [], [])
  }

  // ----- What every step keeps ---------------------------------------------

  predicate Sorted(order: seq<Key>, uses: map<Key, nat>) {
    forall i, j :: 0 <= i < j < |order| && order[i] in uses && order[j] in uses ==> uses[order[i]] < uses[order[j]]
  }

  /** The keys in order of last use are the keys of the entries. */
  ghost predicate OrderOk(h: Shelf) {
    && (forall k :: k in h.order <==> k in h.entries)
    && (forall k :: k in h.entries ==> k in h.uses)
    && (forall k :: k in h.uses ==> h.uses[k] < h.ticks)
    && Sorted(h.order, h.uses)
    && (forall k :: k in h.expired ==> k !in h.entries)
  }

  /** The keys used after key. */
  ghost function Later(h: Shelf, key: Key): set<Key>
    requires key in h.uses
  {
    set x | x in h.uses && h.uses[x] > h.uses[key]
  }

  /** What left without expiring has at least `capacity` keys used after it. */
  ghost predicate Outdated(h: Shelf, capacity: nat) {
    forall k :: k in h.uses && k !in h.entries && k !in h.expired ==> |Later(h, k)| >= capacity
  }

  /** What was used after a survivor survives, unless it expired. */
  ghost predicate RecentKept(h: Shelf) {
    forall k, x :: k in h.entries && k in h.uses && x in h.uses && h.uses[x] > h.uses[k] && x !in h.expired ==>
      x in h.entries
  }

  /** Least recently used out. */
  ghost predicate LruOk(h: Shelf, capacity: nat) {
    Outdated(h, capacity) && RecentKept(h)
  }

  /** A key in flight points to its running fetch, and no other fetch runs. */
  ghost predicate Tracked(s: State) {
    && (forall f :: 0 <= f < |s.flights| ==>
          s.flights[f].leader < |s.tasks|
          && s.tasks[s.flights[f].leader].role == Leads(f)
          && (s.flights[f].outcome.Running? ==> s.flights[f].key in s.inflight && s.inflight[s.flights[f].key] == f))
    && (forall k :: k in s.inflight ==>
          s.inflight[k] < |s.flights| && s.flights[s.inflight[k]].key == k
          && s.flights[s.inflight[k]].outcome.Running? && k !in s.shelf.entries)
  }

  /** A fetch starts only when those of its key are over. */
  ghost predicate Serial(flights: seq<Flight>) {
    forall f, g :: 0 <= f < g < |flights| && flights[f].key == flights[g].key ==> !flights[f].outcome.Running?
  }

  ghost predicate FlightsOk(s: State) {
    Tracked(s) && Serial(s.flights)
  }

  /** Flight f fetched c for key, and every later fetch of key failed. */
  ghost predicate Supplies(flights: seq<Flight>, f: int, key: Key, c: Cached) {
    && 0 <= f < |flights| && flights[f].key == key && flights[f].outcome == Done(c)
    && forall g :: f < g < |flights| && flights[g].key == key ==> flights[g].outcome.Failed?
  }

  ghost predicate LastResult(flights: seq<Flight>, key: Key, c: Cached) {
    exists f :: Supplies(flights, f, key, c)
  }

  ghost predicate StoreOk(s: State) {
    forall k :: k in s.shelf.entries ==>
      LastResult(s.flights, k, s.shelf.entries[k]) && s.shelf.entries[k].created <= s.now
  }

  ghost predicate TaskOk(s: State, t: nat)
    requires t < |s.tasks|
  {
    var task := s.tasks[t];
    match task.role
    case Hit(c, at, seen) =>
      && task.answer == Some(Value(c.value)) && seen <= |s.flights| && LastResult(s.flights[..seen], task.key, c)
      && c.created <= at <= s.now && at - c.created <= s.ttl
    case Leads(f) =>
      && f < |s.flights| && s.flights[f].key == task.key && s.flights[f].leader == t
      && task.answer == AnswerOf(s.flights[f].outcome)
    case Waits(f) =>
      && f < |s.flights| && s.flights[f].key == task.key
      && (task.answer.Some? ==> task.answer == AnswerOf(s.flights[f].outcome))
  }

  ghost predicate TasksOk(s: State) {
    forall t :: 0 <= t < |s.tasks| ==> TaskOk(s, t)
  }

  ghost predicate ShelfOk(h: Shelf, capacity: nat) {
    OrderOk(h) && LruOk(h, capacity) && |h.order| <= capacity
  }

  ghost predicate Inv(s: State) {
    ShelfOk(s.shelf, s.capacity) && FlightsOk(s) && StoreOk(s) && TasksOk(s)
  }

  // ----- The store keeps its order -----------------------------------------

  lemma {:induction false} DropElements(order: seq<Key>, key: Key)
    ensures forall k :: k in Drop(order, key) <==> k in order && k != key
    ensures |Drop(order, key)| <= |order|
  {
    if order != [] {
      DropElements(order[1..], key);
      assert order == [order[0]] + order[1..];
    }
  }

  lemma HeadIsOldest(order: seq<Key>, uses: map<Key, nat>)
    requires Sorted(order, uses) && order != [] && order[0] in uses
    ensures forall k :: k in order[1..] && k in uses ==> uses[order[0]] < uses[k]
  {
    forall k | k in order[1..] && k in uses ensures uses[order[0]] < uses[k] {
      var i :| 0 <= i < |order[1..]| && order[1..][i] == k;
      assert order[i + 1] == k;
    }
  }

  lemma {:induction false} DropSorted(order: seq<Key>, uses: map<Key, nat>, key: Key)
    requires Sorted(order, uses)
    ensures Sorted(Drop(order, key), uses)
  {
    if order == [] { return; }
    DropSorted(order[1..], uses, key);
    DropElements(order[1..], key);
    if order[0] in uses {
      HeadIsOldest(order, uses);
    }
    var d := Drop(order[1..], key);
    assert forall j :: 0 <= j < |d| ==> d[j] in d;
  }

  lemma DropShortens(order: seq<Key>, key: Key)
    requires key in order
    ensures |Drop(order, key)| < |order|
  {
    if order[0] == key {
      DropElements(order[1..], key);
    } else {
      DropShortens(order[1..], key);
    }
  }

  lemma TouchOrder(h: Shelf, key: Key)
    requires OrderOk(h)
    ensures Sorted(Touch(h, key).order, Touch(h, key).uses)
    ensures forall k :: k in Touch(h, key).order <==> k in h.order || k == key
  {
    DropSorted(h.order, h.uses, key);
    DropElements(h.order, key);
    var d := Drop(h.order, key);
    assert forall i :: 0 <= i < |d| ==> d[i] in d;
  }

  /** Keys used after k stay used after k while k itself is not used. */
  lemma LaterGrows(h: Shelf, h': Shelf, k: Key)
    requires k in h.uses && k in h'.uses && h'.uses[k] == h.uses[k]
    requires forall x :: x in h.uses ==> x in h'.uses && h'.uses[x] >= h.uses[x]
    ensures |Later(h, k)| <= |Later(h', k)|
  {
    Subset(Later(h, k), Later(h', k));
  }

  lemma {:induction false} Subset(a: set<Key>, b: set<Key>)
    requires a <= b
    ensures |a| <= |b|
  {
    if a != {} {
      var x :| x in a;
      Subset(a - {x}, b - {x});
    }
  }

  lemma TouchKeeps(h: Shelf, key: Key, capacity: nat)
    requires ShelfOk(h, capacity) && key in h.entries
    ensures ShelfOk(Touch(h, key), capacity)
  {
    var h' := Touch(h, key);
    TouchOrder(h, key);
    DropShortens(h.order, key);
    forall k | k in h'.uses && k !in h'.entries && k !in h'.expired ensures |Later(h', k)| >= capacity {
      LaterGrows(h, h', k);
    }
  }

  lemma ExpireKeeps(h: Shelf, key: Key, capacity: nat)
    requires ShelfOk(h, capacity) && key in h.entries
    ensures ShelfOk(Expire(h, key), capacity)
  {
    var h' := Expire(h, key);
    DropSorted(h.order, h.uses, key);
    DropElements(h.order, key);
    forall k | k in h'.uses && k !in h'.entries && k !in h'.expired ensures |Later(h', k)| >= capacity {
      LaterGrows(h, h', k);
    }
  }

  lemma GetFreshKeeps(h: Shelf, key: Key, now: real, ttl: real, capacity: nat)
    requires ShelfOk(h, capacity)
    ensures ShelfOk(GetFresh(h, key, now, ttl).0, capacity)
  {
    hide ShelfOk, Touch, Expire;
    if key in h.entries {
      TouchKeeps(h, key, capacity);
      ExpireKeeps(h, key, capacity);
    }
  }

  lemma InsertOrder(h: Shelf, key: Key, c: Cached)
    requires OrderOk(h)
    ensures OrderOk(Insert(h, key, c)) && |Insert(h, key, c).order| <= |h.order| + 1
  {
    TouchOrder(h, key);
    DropElements(h.order, key);
    hide Drop, Sorted;
  }

  lemma InsertOutdated(h: Shelf, key: Key, c: Cached, capacity: nat)
    requires OrderOk(h) && Outdated(h, capacity)
    ensures Outdated(Insert(h, key, c), capacity)
  {
    hide Drop, Sorted;
    var h' := Insert(h, key, c);
    forall k | k in h'.uses && k !in h'.entries && k !in h'.expired ensures |Later(h', k)| >= capacity {
      LaterGrows(h, h', k);
    }
  }

  lemma InsertKeeps(h: Shelf, key: Key, c: Cached, capacity: nat)
    requires ShelfOk(h, capacity)
    ensures var h' := Insert(h, key, c);
            OrderOk(h') && LruOk(h', capacity) && |h'.order| <= capacity + 1
  {
    hide Drop, Sorted, Outdated;
    InsertOrder(h, key, c);
    InsertOutdated(h, key, c, capacity);
  }

  function Elements(order: seq<Key>): set<Key> {
    set k | k in order
  }

  lemma {:induction false} DistinctCount(order: seq<Key>, uses: map<Key, nat>)
    requires Sorted(order, uses) && forall k :: k in order ==> k in uses
    ensures |Elements(order)| == |order|
  {
    if order == [] {
      assert Elements(order) == {};
    } else {
      DistinctCount(order[1..], uses);
      HeadIsOldest(order, uses);
      assert Elements(order) == {order[0]} + Elements(order[1..]);
    }
  }

  lemma TailSorted(order: seq<Key>, uses: map<Key, nat>)
    requires Sorted(order, uses) && order != []
    ensures Sorted(order[1..], uses)
  {}

  lemma EvictOrder(h: Shelf)
    requires OrderOk(h) && h.order != []
    ensures forall k :: k in EvictOldest(h).order ==> h.uses[h.order[0]] < h.uses[k]
    ensures OrderOk(EvictOldest(h))
  {
    hide Sorted;
    assert h.order == [h.order[0]] + h.order[1..];
    assert h.order[0] in h.order;
    HeadIsOldest(h.order, h.uses);
    TailSorted(h.order, h.uses);
  }

  lemma EvictedIsOld(h: Shelf, capacity: nat)
    requires OrderOk(h) && |h.order| == capacity + 1
    ensures h.order[0] in h.uses && |Later(EvictOldest(h), h.order[0])| >= capacity
  {
    EvictOrder(h);
    var h' := EvictOldest(h);
    assert h.order[0] in h.order;
    DistinctCount(h'.order, h.uses);
    Subset(Elements(h'.order), Later(h', h.order[0]));
  }

  lemma EvictKeeps(h: Shelf, capacity: nat)
    requires OrderOk(h) && LruOk(h, capacity) && |h.order| == capacity + 1
    ensures ShelfOk(EvictOldest(h), capacity)
  {
    EvictOrder(h);
    EvictedIsOld(h, capacity);
    EvictLru(h, capacity);
    hide OrderOk, LruOk;
  }

  lemma EvictLru(h: Shelf, capacity: nat)
    requires OrderOk(h) && LruOk(h, capacity) && |h.order| > 0
    requires h.order[0] in h.uses && |Later(EvictOldest(h), h.order[0])| >= capacity
    ensures LruOk(EvictOldest(h), capacity)
  {
    hide Outdated, Sorted, Later;
    EvictOutdated(h, capacity);
    EvictOrder(h);
    assert forall k :: k in EvictOldest(h).entries ==> h.uses[h.order[0]] < h.uses[k];
    hide OrderOk;
  }

  lemma EvictOutdated(h: Shelf, capacity: nat)
    requires Outdated(h, capacity) && h.order != []
    requires h.order[0] in h.uses && |Later(EvictOldest(h), h.order[0])| >= capacity
    ensures Outdated(EvictOldest(h), capacity)
  {
    var h' := EvictOldest(h);
    forall k | k in h'.uses && k !in h'.entries && k !in h'.expired ensures |Later(h', k)| >= capacity {
      if k != h.order[0] {
        LaterGrows(h, h', k);
      }
    }
  }

  lemma PutKeeps(h: Shelf, key: Key, c: Cached, capacity: nat)
    requires ShelfOk(h, capacity)
    ensures ShelfOk(Put(h, key, c, capacity), capacity)
    ensures Put(h, key, c, capacity).entries.Keys <= h.entries.Keys + {key}
    ensures forall k :: k in Put(h, key, c, capacity).entries ==>
                          Put(h, key, c, capacity).entries[k] == if k == key then c else h.entries[k]
  {
    InsertKeeps(h, key, c, capacity);
    var h' := Insert(h, key, c);
    assert h'.entries == h.entries[key := c];
    hide LruOk, OrderOk, Insert;
    if |h'.order| > capacity {
      EvictKeeps(h', capacity);
      EvictOnce(h', capacity);
    }
  }

  lemma EvictOnce(h: Shelf, capacity: nat)
    requires |h.order| == capacity + 1
    ensures Evict(h, capacity) == EvictOldest(h)
  {}

  // ----- The protocol keeps its invariant ----------------------------------

  /** Flights only settle and only grow in number. */
  predicate Extends(a: seq<Flight>, b: seq<Flight>) {
    |a| <= |b| && forall f :: 0 <= f < |a| ==>
      b[f].key == a[f].key && b[f].leader == a[f].leader && (!a[f].outcome.Running? ==> b[f] == a[f])
  }

  /** The last result of a key stays so until that key is fetched again. */
  lemma LastResultKept(a: seq<Flight>, b: seq<Flight>, key: Key, c: Cached)
    requires Extends(a, b) && LastResult(a, key, c)
    requires forall f :: |a| <= f < |b| ==> b[f].key != key
    ensures LastResult(b, key, c)
  {
    var f :| Supplies(a, f, key, c);
    assert Supplies(b, f, key, c);
  }

  lemma LandsOn(s: State, f: nat)
    requires Inv(s) && f < |s.flights|
    ensures ShelfOk(s.shelf, s.capacity) && s.flights[f].leader < |s.tasks|
  {}

  lemma TaskKept(s: State, s': State, t: nat)
    requires t < |s.tasks| && t < |s'.tasks| && s'.tasks[t] == s.tasks[t] && TaskOk(s, t)
    requires Extends(s.flights, s'.flights) && s'.now >= s.now && s'.ttl == s.ttl
    requires s.tasks[t].role.Leads? ==> s'.flights[s.tasks[t].role.flight] == s.flights[s.tasks[t].role.flight]
    ensures TaskOk(s', t)
  {
    if s.tasks[t].role.Hit? {
      var n := s.tasks[t].role.seen;
      LastResultKept(s.flights[..n], s'.flights[..n], s.tasks[t].key, s.tasks[t].role.cached);
    }
  }

  lemma RequestTasks(s: State, key: Key, now: real)
    requires Inv(s) && Possible(s, Request(key, now))
    ensures TasksOk(DoRequest(s, key, now))
  {
    var s' := DoRequest(s, key, now);
    GetFreshEntries(s.shelf, key, now, s.ttl);
    hide ShelfOk, GetFresh, Serial;
    forall t | 0 <= t < |s'.tasks| ensures TaskOk(s', t) {
      if t < |s.tasks| {
        hide TaskOk, Tracked, StoreOk;
        TaskKept(s, s', t);
      } else {
        hide TasksOk;
        assert s.flights[..|s.flights|] == s.flights;
      }
    }
  }

  lemma GetFreshEntries(h: Shelf, key: Key, now: real, ttl: real)
    ensures var got := GetFresh(h, key, now, ttl);
            && (forall k :: k in got.0.entries ==> k in h.entries && got.0.entries[k] == h.entries[k])
            && (got.1.None? ==> key !in got.0.entries)
            && (got.1.Some? ==> key in h.entries && got.1.value == h.entries[key] && now - got.1.value.created <= ttl)
  {}

  lemma RequestStore(s: State, key: Key, now: real)
    requires StoreOk(s) && Possible(s, Request(key, now))
    ensures StoreOk(DoRequest(s, key, now))
  {
    var s' := DoRequest(s, key, now);
    GetFreshEntries(s.shelf, key, now, s.ttl);
    hide LastResult, GetFresh;
    forall k | k in s'.shelf.entries ensures LastResult(s'.flights, k, s'.shelf.entries[k]) {
      LastResultKept(s.flights, s'.flights, k, s.shelf.entries[k]);
    }
  }

  lemma RequestFlights(s: State, key: Key, now: real)
    requires FlightsOk(s) && Possible(s, Request(key, now))
    ensures FlightsOk(DoRequest(s, key, now))
  {
    hide Serial, Tracked;
    RequestSerial(s, key, now);
    RequestTracked(s, key, now);
  }

  lemma RequestSerial(s: State, key: Key, now: real)
    requires FlightsOk(s)
    ensures Serial(DoRequest(s, key, now).flights)
  {
    hide GetFresh;
  }

  lemma RequestTracked(s: State, key: Key, now: real)
    requires Tracked(s)
    ensures Tracked(DoRequest(s, key, now))
  {
    hide GetFresh;
    GetFreshEntries(s.shelf, key, now, s.ttl);
  }

  lemma RequestKeeps(s: State, key: Key, now: real)
    requires Inv(s) && Possible(s, Request(key, now))
    ensures Inv(DoRequest(s, key, now))
  {
    RequestTasks(s, key, now);
    RequestStore(s, key, now);
    RequestFlights(s, key, now);
    hide ShelfOk, FlightsOk, StoreOk, TasksOk, GetFresh;
    GetFreshKeeps(s.shelf, key, now, s.ttl, s.capacity);
  }

  lemma LandFlights(s: State, f: nat, o: Outcome)
    requires FlightsOk(s) && f < |s.flights| && s.flights[f].outcome.Running? && !o.Running?
    ensures FlightsOk(Land(s, f, o))
  {
    assert s.flights[f].leader < |s.tasks|;
    hide Tracked;
    assert Serial(Land(s, f, o).flights);
    LandTracked(s, f, o);
  }

  lemma LandTracked(s: State, f: nat, o: Outcome)
    requires Tracked(s) && f < |s.flights| && s.flights[f].outcome.Running? && !o.Running?
    ensures s.flights[f].leader < |s.tasks| && Tracked(Land(s, f, o))
  {}

  lemma LandTasks(s: State, f: nat, o: Outcome)
    requires FlightsOk(s) && TasksOk(s) && f < |s.flights| && s.flights[f].outcome.Running? && !o.Running?
    ensures TasksOk(Land(s, f, o))
  {
    var s' := Land(s, f, o);
    forall t | 0 <= t < |s'.tasks| ensures TaskOk(s', t) {
      if t != s.flights[f].leader {
        assert TaskOk(s, t);
        TaskKept(s, s', t);
      } else {
        assert TaskOk(s, t);
      }
    }
  }

  lemma LandExtends(s: State, f: nat, o: Outcome)
    requires FlightsOk(s) && f < |s.flights| && s.flights[f].outcome.Running?
    ensures |Land(s, f, o).flights| == |s.flights| && Extends(s.flights, Land(s, f, o).flights)
  {
    assert s.flights[f].leader < |s.tasks|;
  }

  lemma FailStore(s: State, f: nat, e: Error)
    requires FlightsOk(s) && StoreOk(s) && f < |s.flights| && s.flights[f].outcome.Running?
    ensures StoreOk(Land(s, f, Failed(e)))
  {
    LandExtends(s, f, Failed(e));
    var s' := Land(s, f, Failed(e));
    hide LastResult, Extends;
    forall k | k in s'.shelf.entries ensures LastResult(s'.flights, k, s'.shelf.entries[k]) {
      LastResultKept(s.flights, s'.flights, k, s.shelf.entries[k]);
    }
  }

  lemma FailKeeps(s: State, f: nat, e: Error)
    requires Inv(s) && Possible(s, Fail(f, e))
    ensures Inv(Land(s, f, Failed(e)))
  {
    hide TasksOk, ShelfOk, StoreOk;
    LandFlights(s, f, Failed(e));
    LandTasks(s, f, Failed(e));
    FailStore(s, f, e);
    hide FlightsOk;
  }

  /** The landed flight supplies its key. */
  lemma LandSupplies(s: State, f: nat, c: Cached)
    requires FlightsOk(s) && f < |s.flights| && s.flights[f].outcome.Running?
    ensures LastResult(Land(s, f, Done(c)).flights, s.flights[f].key, c)
  {
    assert Supplies(Land(s, f, Done(c)).flights, f, s.flights[f].key, c);
  }

  lemma SucceedStore(s: State, f: nat, span: Span, now: real)
    requires FlightsOk(s) && StoreOk(s) && ShelfOk(s.shelf, s.capacity) && Possible(s, Succeed(f, span, now))
    ensures StoreOk(DoSucceed(s, f, span, now))
  {
    hide ShelfOk, LastResult, Put, Extends;
    var s' := DoSucceed(s, f, span, now);
    LandSupplies(s, f, Cached(span, now));
    LandExtends(s, f, Done(Cached(span, now)));
    PutKeeps(s.shelf, s.flights[f].key, Cached(span, now), s.capacity);
    hide FlightsOk;
    forall k | k in s'.shelf.entries ensures LastResult(s'.flights, k, s'.shelf.entries[k]) {
      if k != s.flights[f].key {
        LastResultKept(s.flights, s'.flights, k, s.shelf.entries[k]);
      }
    }
  }

  /** Later clocks and other stores leave the tasks in order. */
  lemma TasksKept(s: State, s': State)
    requires TasksOk(s) && s' == s.(shelf := s'.shelf, now := s'.now) && s'.now >= s.now
    ensures TasksOk(s')
  {
    forall t | 0 <= t < |s.tasks| ensures TaskOk(s', t) {
      TaskKept(s, s', t);
    }
  }

  /** The flights are in order with any store that holds no key in flight. */
  lemma FlightsKept(s: State, s': State)
    requires FlightsOk(s) && s' == s.(shelf := s'.shelf, now := s'.now)
    requires forall k :: k in s.inflight ==> k !in s'.shelf.entries
    ensures FlightsOk(s')
  {}

  lemma SucceedFlights(s: State, f: nat, span: Span, now: real)
    requires FlightsOk(s) && ShelfOk(s.shelf, s.capacity) && Possible(s, Succeed(f, span, now))
    ensures FlightsOk(DoSucceed(s, f, span, now))
  {
    hide ShelfOk, Put;
    var c := Cached(span, now);
    PutKeeps(s.shelf, s.flights[f].key, c, s.capacity);
    LandFlights(s, f, Done(c));
    var landed, s' := Land(s, f, Done(c)), DoSucceed(s, f, span, now);
    assert forall k :: k in landed.inflight ==> k in s.inflight && k != s.flights[f].key;
    assert forall k :: k in landed.inflight ==> k !in s'.shelf.entries;
    hide FlightsOk;
    FlightsKept(landed, s');
  }

  lemma SucceedTasks(s: State, f: nat, span: Span, now: real)
    requires Inv(s) && Possible(s, Succeed(f, span, now))
    ensures TasksOk(DoSucceed(s, f, span, now))
  {
    LandTasks(s, f, Done(Cached(span, now)));
    hide Put, ShelfOk, TasksOk, StoreOk;
    TasksKept(Land(s, f, Done(Cached(span, now))), DoSucceed(s, f, span, now));
  }

  lemma SucceedKeeps(s: State, f: nat, span: Span, now: real)
    requires Inv(s) && Possible(s, Succeed(f, span, now))
    ensures Inv(DoSucceed(s, f, span, now))
  {
    SucceedStore(s, f, span, now);
    SucceedFlights(s, f, span, now);
    SucceedTasks(s, f, span, now);
    PutKeeps(s.shelf, s.flights[f].key, Cached(span, now), s.capacity);
    hide TasksOk, ShelfOk, StoreOk, FlightsOk, Put;
  }

  lemma ResumeKeeps(s: State, t: nat)
    requires Inv(s) && Possible(s, Resume(t))
    ensures Inv(DoResume(s, t))
  {
    var s' := DoResume(s, t);
    hide ShelfOk, LastResult;
    forall i | 0 <= i < |s'.tasks| ensures TaskOk(s', i) {
      assert TaskOk(s, i);
      if i != t {
        TaskKept(s, s', i);
      }
    }
  }

  lemma StepKeeps(s: State, ev: Event)
    requires Inv(s) && Possible(s, ev)
    ensures Inv(Next(s, ev))
  {
    hide Inv, DoRequest, DoSucceed, DoResume, Land;
    match ev
    case Request(key, now) => RequestKeeps(s, key, now);
    case Succeed(f, span, now) => SucceedKeeps(s, f, span, now);
    case Fail(f, e) => FailKeeps(s, f, e);
    case Resume(t) => ResumeKeeps(s, t);
  }

  // ----- Whole runs --------------------------------------------------------

  /** A run from s; impossible events do not happen. */
  ghost function Run(s: State, evs: seq<Event>): (r: State)
    requires Inv(s)
    ensures Inv(r) && r.capacity == s.capacity && r.ttl == s.ttl
  {
    if evs == [] then s
    else
      var r := Run(s, evs[..|evs| - 1]);
      var ev := evs[|evs| - 1];
      if !Possible(r, ev) then r else (StepKeeps(r, ev); Next(r, ev))
  }

  // ----- Uses, from what the calls and fetches did -------------------------

  /** The key that an event uses: a call served from the store uses its own, and so
      does a fetch that succeeds. */
  ghost function UsedBy(s: State, ev: Event): Option<Key>
    requires Inv(s)
  {
    if !Possible(s, ev) then None
    else
      match ev
      case Request(key, _) =>
        var tasks := Next(s, ev).tasks;
        if |tasks| > |s.tasks| && tasks[|s.tasks|].role.Hit? then Some(key) else None
      case Succeed(f, _, _) => Some(s.flights[f].key)
      case _ => None
  }

  /** The last event of a run that used key; -1 if none did. */
  ghost function LastUse(s: State, evs: seq<Event>, key: Key): (n: int)
    requires Inv(s)
    ensures -1 <= n < |evs|
  {
    if evs == [] then -1
    else
      var before := evs[..|evs| - 1];
      if UsedBy(Run(s, before), evs[|evs| - 1]) == Some(key) then |evs| - 1 else LastUse(s, before, key)
  }

  /** An event finds key too old; it does not store key again. */
  ghost predicate Lapses(s: State, ev: Event, key: Key, before: bool)
    requires Inv(s)
  {
    if !Possible(s, ev) then before
    else
      match ev
      case Request(k, now) => before || (k == key && key in s.shelf.entries && now - s.shelf.entries[key].created > s.ttl)
      case Succeed(f, _, _) => before && s.flights[f].key != key
      case _ => before
  }

  /** Key was found too old on the run and has not been stored since. */
  ghost predicate Lapsed(s: State, evs: seq<Event>, key: Key)
    requires Inv(s)
  {
    evs != [] && Lapses(Run(s, evs[..|evs| - 1]), evs[|evs| - 1], key, Lapsed(s, evs[..|evs| - 1], key))
  }

  /** The keys that a run used after its last use of key. */
  ghost function UsedSince(s: State, evs: seq<Event>, key: Key): (r: set<Key>)
    requires Inv(s)
    ensures r <= UsedKeys(s, evs)
  {
    set x | x in UsedKeys(s, evs) && LastUse(s, evs, x) > LastUse(s, evs, key)
  }

  ghost function UsedKeys(s: State, evs: seq<Event>): (r: set<Key>)
    requires Inv(s)
    ensures forall k :: k in r <==> LastUse(s, evs, k) >= 0
  {
    if evs == [] then {}
    else
      var before := evs[..|evs| - 1];
      var used := UsedBy(Run(s, before), evs[|evs| - 1]);
      UsedKeys(s, before) + if used.Some? then {used.value} else {}
  }

  lemma RequestUses(s: State, key: Key, now: real)
    requires Inv(s) && Possible(s, Request(key, now))
    ensures var s', ev := Next(s, Request(key, now)), Request(key, now);
            var late := key in s.shelf.entries && now - s.shelf.entries[key].created > s.ttl;
            && (UsedBy(s, ev).Some? <==> key in s.shelf.entries && !late)
            && s'.shelf.uses == (if UsedBy(s, ev).Some? then s.shelf.uses[key := s.shelf.ticks] else s.shelf.uses)
            && s'.shelf.expired == if late then s.shelf.expired + {key} else s.shelf.expired
  {
    hide ShelfOk, FlightsOk, StoreOk, TasksOk, Drop;
  }

  lemma SucceedUses(s: State, f: nat, span: Span, now: real)
    requires Inv(s) && Possible(s, Succeed(f, span, now))
    ensures var h, h', key := s.shelf, Next(s, Succeed(f, span, now)).shelf, s.flights[f].key;
            h'.uses == h.uses[key := h.ticks] && h'.expired == h.expired - {key}
  {
    assert s.flights[f].key !in s.shelf.entries && s.flights[f].key !in s.shelf.order;
    hide ShelfOk, StoreOk, TasksOk, Put, Serial;
    PutEvicts(s.shelf, s.flights[f].key, Cached(span, now), s.capacity);
  }

  /** The stamps order the keys as their last uses do. */
  ghost predicate Tells(s: State, evs: seq<Event>, h: Shelf)
    requires Inv(s)
  {
    && (forall k :: k in h.uses <==> LastUse(s, evs, k) >= 0)
    && (forall k, x :: k in h.uses && x in h.uses ==>
          (h.uses[x] > h.uses[k] <==> LastUse(s, evs, x) > LastUse(s, evs, k)))
  }

  lemma Stamped(s: State, ev: Event)
    requires Inv(s) && Possible(s, ev)
    ensures var h, h', used := s.shelf, Next(s, ev).shelf, UsedBy(s, ev);
            && h'.uses == (if used.Some? then h.uses[used.value := h.ticks] else h.uses)
            && (forall k :: k in h.uses ==> h.uses[k] < h.ticks)
            && (forall k :: k in h'.expired <==> Lapses(s, ev, k, k in h.expired))
  {
    hide FlightsOk, StoreOk, TasksOk, LruOk, Sorted, Put, GetFresh;
    match ev
    case Request(key, now) => RequestUses(s, key, now);
    case Succeed(f, span, now) => SucceedUses(s, f, span, now);
    case Fail(_, _) =>
    case Resume(_) =>
  }

  lemma NothingUsed(s: State, ev: Event, key: Key, before: bool)
    requires Inv(s) && !Possible(s, ev)
    ensures UsedBy(s, ev) == None && Lapses(s, ev, key, before) == before
  {}

  lemma {:induction false} RunTells(s: State, evs: seq<Event>)
    requires Inv(s) && s.shelf.uses == map[]
    ensures Tells(s, evs, Run(s, evs).shelf)
  {
    hide Inv, Next, UsedBy, Possible, Lapses;
    if evs != [] {
      var before, ev := evs[..|evs| - 1], evs[|evs| - 1];
      RunTells(s, before);
      var r := Run(s, before);
      if Possible(r, ev) {
        Stamped(r, ev);
      } else {
        NothingUsed(r, ev, 0, false);
      }
    }
  }

  lemma {:induction false} RunLapses(s: State, evs: seq<Event>, key: Key)
    requires Inv(s) && s.shelf.expired == {}
    ensures key in Run(s, evs).shelf.expired <==> Lapsed(s, evs, key)
  {
    hide Inv, Next, UsedBy, Possible, Lapses;
    if evs != [] {
      var before, ev := evs[..|evs| - 1], evs[|evs| - 1];
      RunLapses(s, before, key);
      var r := Run(s, before);
      if Possible(r, ev) {
        Stamped(r, ev);
      } else {
        NothingUsed(r, ev, key, Lapsed(s, before, key));
      }
    }
  }

  /** Over every interleaving: no two fetches of one key run together; whoever waited
      for a fetch and was answered has what its leader has, which is what the fetch
      returned or raised; a hit is the result of the latest successful fetch of its
      key, every fetch between that one and the hit having failed, and is no older
      than the TTL; the store stays within its capacity. */
  lemma CacheRuns(capacity: nat, ttl: real, now: real, evs: seq<Event>)
    ensures var s := Run(Fresh(capacity, ttl, now), evs);
            && (forall f, g :: 0 <= f < g < |s.flights| && s.flights[f].key == s.flights[g].key ==>
                  !(s.flights[f].outcome.Running? && s.flights[g].outcome.Running?))
            && (forall t :: 0 <= t < |s.tasks| && s.tasks[t].role.Waits? && s.tasks[t].answer.Some? ==>
                  AsLeader(s, s.tasks[t]))
            && (forall t :: 0 <= t < |s.tasks| && s.tasks[t].role.Leads? ==> Told(s, s.tasks[t]))
            && (forall t :: 0 <= t < |s.tasks| && s.tasks[t].role.Hit? ==>
                  HitIsRecent(s, s.tasks[t]))
            && |s.shelf.entries| <= capacity
  {
    hide Run;
    var s := Run(Fresh(capacity, ttl, now), evs);
    StoreSize(s.shelf);
    WaitersAgree(s);
    HitsAreRecent(s);
    LeadersAreTold(s);
    hide ShelfOk, StoreOk, TasksOk, AsLeader, HitIsRecent, Told;
  }

  lemma WaitersAgree(s: State)
    requires FlightsOk(s) && TasksOk(s)
    ensures forall t :: 0 <= t < |s.tasks| && s.tasks[t].role.Waits? && s.tasks[t].answer.Some? ==>
                          AsLeader(s, s.tasks[t])
  {
    forall t | 0 <= t < |s.tasks| && s.tasks[t].role.Waits? && s.tasks[t].answer.Some? ensures AsLeader(s, s.tasks[t]) {
      assert TaskOk(s, t) && TaskOk(s, s.flights[s.tasks[t].role.flight].leader);
    }
  }

  lemma HitsAreRecent(s: State)
    requires TasksOk(s)
    ensures forall t :: 0 <= t < |s.tasks| && s.tasks[t].role.Hit? ==> HitIsRecent(s, s.tasks[t])
  {
    forall t | 0 <= t < |s.tasks| && s.tasks[t].role.Hit? ensures HitIsRecent(s, s.tasks[t]) {
      assert TaskOk(s, t);
    }
  }

  /** A caller that runs a fetch returns what it returned, or raises what it raised,
      once that is over. */
  predicate Told(s: State, leader: Task)
    requires leader.role.Leads?
  {
    && leader.role.flight < |s.flights|
    && match s.flights[leader.role.flight].outcome
       case Running => leader.answer == None
       case Done(c) => leader.answer == Some(Value(c.value))
       case Failed(e) => leader.answer == Some(Raised(e))
  }

  lemma LeadersAreTold(s: State)
    requires TasksOk(s)
    ensures forall t :: 0 <= t < |s.tasks| && s.tasks[t].role.Leads? ==> Told(s, s.tasks[t])
  {
    forall t | 0 <= t < |s.tasks| && s.tasks[t].role.Leads? ensures Told(s, s.tasks[t]) {
      assert TaskOk(s, t);
    }
  }

  /** A waiter has its leader's answer, for the same key. */
  predicate AsLeader(s: State, waiter: Task)
    requires waiter.role.Waits?
  {
    && waiter.role.flight < |s.flights| && s.flights[waiter.role.flight].leader < |s.tasks|
    && var leader := s.tasks[s.flights[waiter.role.flight].leader];
       leader.role == Leads(waiter.role.flight) && leader.key == waiter.key && leader.answer == waiter.answer
  }

  ghost predicate HitIsRecent(s: State, task: Task)
    requires task.role.Hit?
  {
    var c, at, seen := task.role.cached, task.role.at, task.role.seen;
    && task.answer == Some(Value(c.value)) && seen <= |s.flights|
    && (exists f :: Supplies(s.flights[..seen], f, task.key, c))
    && c.created <= at && at - c.created <= s.ttl
  }

  lemma StoreSize(h: Shelf)
    requires OrderOk(h)
    ensures |h.entries| == |h.order|
  {
    DistinctCount(h.order, h.uses);
    assert h.entries.Keys == Elements(h.order);
  }

  lemma FewerLater(s: State, key: Key)
    requires Inv(s) && key in s.shelf.uses
    ensures key in s.shelf.entries ==> |Later(s.shelf, key) - s.shelf.expired| < s.capacity
    ensures key !in s.shelf.entries && key !in s.shelf.expired ==> |Later(s.shelf, key)| >= s.capacity
    ensures s.shelf.expired == {} ==> (key in s.shelf.entries <==> |Later(s.shelf, key)| < s.capacity)
  {
    var h := s.shelf;
    hide FlightsOk, StoreOk, TasksOk;
    if key in h.entries {
      StoreSize(h);
      Subset(Later(h, key) - h.expired, h.entries.Keys - {key});
    }
    if h.expired == {} {
      assert Later(h, key) - h.expired == Later(h, key);
    }
  }

  /** The keys stamped later are those that the run used later. */
  lemma LaterIsSince(s: State, evs: seq<Event>, key: Key)
    requires Inv(s) && s.shelf.uses == map[] && LastUse(s, evs, key) >= 0
    ensures key in Run(s, evs).shelf.uses && Later(Run(s, evs).shelf, key) == UsedSince(s, evs, key)
  {
    hide Inv, Run, LastUse;
    RunTells(s, evs);
  }

  /** The unlapsed among the keys that a run used after its last use of key. */
  ghost function LiveSince(s: State, evs: seq<Event>, key: Key): set<Key>
    requires Inv(s)
  {
    set x | x in UsedSince(s, evs, key) && !Lapsed(s, evs, x)
  }

  /** A key is used when a call is served from its entry or a fetch of it succeeds.
      After any run the store holds only keys with fewer than `capacity` unexpired
      keys used since, and every unexpired key with fewer than `capacity` keys used
      since. So while nothing has expired it holds exactly those with fewer. */
  lemma LeastRecentlyUsed(capacity: nat, ttl: real, now: real, evs: seq<Event>, key: Key)
    requires LastUse(Fresh(capacity, ttl, now), evs, key) >= 0
    ensures var s := Fresh(capacity, ttl, now);
            var entries := Run(s, evs).shelf.entries;
            && (key in entries ==> !Lapsed(s, evs, key) && |LiveSince(s, evs, key)| < capacity)
            && (key !in entries && !Lapsed(s, evs, key) ==> |UsedSince(s, evs, key)| >= capacity)
            && ((forall x :: x in UsedKeys(s, evs) ==> !Lapsed(s, evs, x)) ==>
                  (key in entries <==> |UsedSince(s, evs, key)| < capacity))
  {
    hide Run, LastUse, Lapsed, UsedSince, FlightsOk, StoreOk, TasksOk, LruOk, Sorted, Later;
    var s := Fresh(capacity, ttl, now);
    var h := Run(s, evs).shelf;
    LaterIsSince(s, evs, key);
    FewerLater(Run(s, evs), key);
    forall x ensures x in h.expired <==> Lapsed(s, evs, x) {
      RunLapses(s, evs, x);
    }
    assert LiveSince(s, evs, key) == Later(h, key) - h.expired;
    if forall x :: x in UsedKeys(s, evs) ==> !Lapsed(s, evs, x) {
      assert LiveSince(s, evs, key) == UsedSince(s, evs, key);
    }
  }

  lemma {:induction false} DropAbsent(order: seq<Key>, key: Key)
    requires key !in order
    ensures Drop(order, key) == order
  {
    if order != [] {
      DropAbsent(order[1..], key);
      assert order[0] in order && forall k :: k in order[1..] ==> k in order;
    }
  }

  /** Storing a new key over a full store removes the key used longest ago. */
  lemma PutEvicts(h: Shelf, key: Key, c: Cached, capacity: nat)
    requires |h.order| <= capacity && key !in h.order
    ensures var h' := Put(h, key, c, capacity);
            && h'.order == (if |h.order| < capacity then h.order + [key] else (h.order + [key])[1..])
            && h'.uses == h.uses[key := h.ticks] && h'.ticks == h.ticks + 1 && h'.expired == h.expired - {key}
  {
    DropAbsent(h.order, key);
    var full := Insert(h, key, c);
    assert full.order == h.order + [key];
    hide Drop;
    if |h.order| == capacity {
      EvictOnce(full, capacity);
    }
  }

  /** What a new key leaves of the store: k is the one that is gone. */
  ghost predicate Oldest(h: Shelf, h': Shelf, k: Key) {
    && h.entries.Keys - h'.entries.Keys == {k} && k in h'.uses
    && forall x :: x in h'.entries ==> x in h'.uses && h'.uses[k] < h'.uses[x]
  }

  /** The one key that is gone from h to h' was stamped before all that are left. */
  lemma FetchTrims(s: State, f: nat, span: Span, now: real)
    requires Inv(s) && Possible(s, Succeed(f, span, now)) && s.capacity >= 1
    ensures var h, h', key := s.shelf, Next(s, Succeed(f, span, now)).shelf, s.flights[f].key;
            && key !in h.entries && key in h'.entries && h'.entries[key] == Cached(span, now)
            && (forall k :: k in h'.entries && k != key ==> k in h.entries && h'.entries[k] == h.entries[k])
            && (if |h.entries| < s.capacity then h.entries.Keys <= h'.entries.Keys else exists k :: Oldest(h, h', k))
  {
    PutKeeps(s.shelf, s.flights[f].key, Cached(span, now), s.capacity);
    StoreSize(s.shelf);
    hide Put, ShelfOk, StoreOk, TasksOk, OrderOk, LruOk, Oldest;
    PutTrims(s.shelf, s.flights[f].key, Cached(span, now), s.capacity);
  }

  /** Of the keys that h holds, k is the one that the run used longest ago. */
  ghost predicate LeastRecent(s: State, evs: seq<Event>, h: Shelf, k: Key)
    requires Inv(s)
  {
    k in h.entries && forall x :: x in h.entries && x != k ==> LastUse(s, evs, k) < LastUse(s, evs, x)
  }

  lemma OldestIsLeastRecent(s: State, evs: seq<Event>, h: Shelf, h': Shelf, key: Key, k: Key)
    requires Inv(s) && Tells(s, evs, h) && OrderOk(h) && Oldest(h, h', k)
    requires key !in h.entries && h'.uses == h.uses[key := h.ticks]
    ensures LeastRecent(s, evs, h, k)
  {
    hide LastUse, Sorted;
    assert k in h.entries.Keys - h'.entries.Keys;
    forall x | x in h.entries && x != k ensures LastUse(s, evs, k) < LastUse(s, evs, x) {
      assert x !in h.entries.Keys - h'.entries.Keys;
      assert x in h'.entries;
    }
  }

  /** A fetch that succeeds after any run stores its result, changes no other entry,
      and removes a key only from a full store: the one used longest ago. */
  lemma EvictsLeastRecent(capacity: nat, ttl: real, start: real, evs: seq<Event>, f: nat, span: Span, now: real)
    requires Possible(Run(Fresh(capacity, ttl, start), evs), Succeed(f, span, now)) && capacity >= 1
    ensures var s := Run(Fresh(capacity, ttl, start), evs);
            var h, h', key := s.shelf, Next(s, Succeed(f, span, now)).shelf, s.flights[f].key;
            && key in h'.entries && h'.entries[key] == Cached(span, now)
            && (forall k :: k in h'.entries && k != key ==> k in h.entries && h'.entries[k] == h.entries[k])
            && (if |h.entries| < capacity then h.entries.Keys <= h'.entries.Keys
                else exists k :: h.entries.Keys - h'.entries.Keys == {k}
                                 && LeastRecent(Fresh(capacity, ttl, start), evs, h, k))
  {
    hide Run, FlightsOk, StoreOk, TasksOk, LruOk, Sorted, DoSucceed, LeastRecent, OrderOk;
    var s0 := Fresh(capacity, ttl, start);
    var s := Run(s0, evs);
    FetchTrims(s, f, span, now);
    SucceedUses(s, f, span, now);
    RunTells(s0, evs);
    var h, h' := s.shelf, Next(s, Succeed(f, span, now)).shelf;
    if |h.entries| >= capacity {
      var k :| Oldest(h, h', k);
      OldestIsLeastRecent(s0, evs, h, h', s.flights[f].key, k);
    }
  }

  lemma PutTrims(h: Shelf, key: Key, c: Cached, capacity: nat)
    requires ShelfOk(h, capacity) && capacity >= 1 && key !in h.entries
    ensures var h' := Put(h, key, c, capacity);
            && key in h'.entries
            && if |h.order| < capacity then h.entries.Keys <= h'.entries.Keys else exists k :: Oldest(h, h', k)
  {
    StoredKeys(h);
    PutKeeps(h, key, c, capacity);
    hide Put, OrderOk, LruOk, Oldest;
    PutEvicts(h, key, c, capacity);
    Trimmed(h, Put(h, key, c, capacity), key, capacity);
  }

  lemma Trimmed(h: Shelf, h': Shelf, key: Key, capacity: nat)
    requires OrderOk(h) && OrderOk(h') && |h.order| <= capacity && capacity >= 1 && key !in h.entries
    requires h'.order == (if |h.order| < capacity then h.order + [key] else (h.order + [key])[1..])
    requires h'.uses == h.uses[key := h.ticks]
    ensures key in h'.entries
    ensures if |h.order| < capacity then h.entries.Keys <= h'.entries.Keys else exists k :: Oldest(h, h', k)
  {
    hide OrderOk, Oldest;
    if |h.order| == capacity {
      assert h'.order == h.order[1..] + [key];
      KeysGone(h, h', key);
      GoneIsOldest(h, h', key);
    } else {
      NothingGone(h, h', key);
    }
  }

  lemma NothingGone(h: Shelf, h': Shelf, key: Key)
    requires OrderOk(h) && OrderOk(h') && h'.order == h.order + [key]
    ensures key in h'.entries && h.entries.Keys <= h'.entries.Keys
  {
    StoredKeys(h);
    StoredKeys(h');
    hide OrderOk;
    assert forall k :: k in h'.order <==> k in h.order || k == key;
  }

  lemma StoredKeys(h: Shelf)
    requires OrderOk(h)
    ensures forall k :: k in h.order <==> k in h.entries
  {}

  lemma OldestFirst(h: Shelf)
    requires OrderOk(h) && h.order != []
    ensures h.order[0] in h.uses && h.uses[h.order[0]] < h.ticks && h.order[0] !in h.order[1..]
    ensures forall k :: k in h.order[1..] ==> k in h.uses && h.uses[h.order[0]] < h.uses[k]
  {
    hide Sorted;
    assert h.order[0] in h.order && forall k :: k in h.order[1..] ==> k in h.order;
    HeadIsOldest(h.order, h.uses);
  }

  lemma Members(order: seq<Key>, key: Key)
    requires order != []
    ensures forall x :: x in order <==> x == order[0] || x in order[1..]
    ensures forall x :: x in order[1..] + [key] <==> x in order[1..] || x == key
  {
    assert order == [order[0]] + order[1..];
  }

  lemma KeysGone(h: Shelf, h': Shelf, key: Key)
    requires OrderOk(h) && OrderOk(h') && key !in h.entries && h.order != []
    requires h'.order == h.order[1..] + [key]
    ensures h.entries.Keys - h'.entries.Keys == {h.order[0]}
    ensures forall x :: x in h'.entries <==> x in h.order[1..] || x == key
  {
    StoredKeys(h);
    StoredKeys(h');
    OldestFirst(h);
    Members(h.order, key);
    hide OrderOk;
  }

  lemma GoneIsOldest(h: Shelf, h': Shelf, key: Key)
    requires OrderOk(h) && OrderOk(h') && key !in h.entries && h.order != []
    requires h'.order == h.order[1..] + [key] && h'.uses == h.uses[key := h.ticks]
    ensures Oldest(h, h', h.order[0])
  {
    hide OrderOk;
    KeysGone(h, h', key);
    OldestFirst(h);
    assert h.order[0] != key;
  }

  /** A call is served from the store exactly when its key's entry is no older than
      the TTL; only an entry that is too old leaves the store. */
  lemma FreshIsHit(s: State, key: Key, now: real)
    requires Inv(s) && Possible(s, Request(key, now))
    ensures var s', t := Next(s, Request(key, now)), |s.tasks|;
            var young := key in s.shelf.entries && now - s.shelf.entries[key].created <= s.ttl;
            && |s'.tasks| == t + 1
            && (if young then s'.tasks[t].role == Hit(s.shelf.entries[key], now, |s.flights|) else !s'.tasks[t].role.Hit?)
            && s'.shelf.entries == if young then s.shelf.entries else s.shelf.entries - {key}
  {
    hide ShelfOk, FlightsOk, StoreOk, TasksOk, Drop;
  }

  /** A second fetch of a key that was once used starts only if its entry is too
      old, or has gone by expiry or to make room for that many keys used since. */
  lemma RefetchedOnlyIfGone(capacity: nat, ttl: real, start: real, evs: seq<Event>, key: Key, now: real)
    requires Possible(Run(Fresh(capacity, ttl, start), evs), Request(key, now))
    requires LastUse(Fresh(capacity, ttl, start), evs, key) >= 0
    ensures var s0 := Fresh(capacity, ttl, start);
            var s := Run(s0, evs);
            |Next(s, Request(key, now)).flights| > |s.flights| ==>
              || Lapsed(s0, evs, key) || |UsedSince(s0, evs, key)| >= capacity
              || (key in s.shelf.entries && now - s.shelf.entries[key].created > ttl)
  {
    hide Run, LastUse, Lapsed, UsedSince, ShelfOk, FlightsOk, StoreOk, TasksOk, Touch, Expire;
    LeastRecentlyUsed(capacity, ttl, start, evs, key);
  }

  /** After a failed fetch the store is untouched, and the next call fetches again. */
  lemma FailureIsRetried(s: State, f: nat, e: Error, now: real)
    requires Inv(s) && Possible(s, Fail(f, e)) && now >= s.now
    ensures var s1 := Next(s, Fail(f, e));
            && s1.shelf == s.shelf && Inv(s1)
            && Next(s1, Request(s.flights[f].key, now)).flights
               == s1.flights + [Flight(s.flights[f].key, |s1.tasks|, Running)]
  {
    StepKeeps(s, Fail(f, e));
    hide ShelfOk, StoreOk, TasksOk;
  }

  // ----- The cache ---------------------------------------------------------

  /** `_store` is `entries` with `order`, `_inflight` maps a key to its future, whose
      state is the flight; the tasks are the suspended and finished calls. */
  class Cache {
    const capacity: nat
    const ttl: real
    var entries: map<Key, Cached>
    var order: seq<Key>
    var inflight: map<Key, nat>
    var flights: seq<Flight>
    var tasks: seq<Task>
    ghost var uses: map<Key, nat>
    ghost var ticks: nat
    ghost var expired: set<Key>
    ghost var now: real

    ghost function Held(): Shelf
      reads this
    {
      Shelf(entries, order, uses, ticks, expired)
    }

    ghost function View(): State
      reads this
    {
      State(capacity, ttl, now, Held(), inflight, flights, tasks)
    }

    constructor (capacity: nat, ttl: real, ghost now: real)
      requires capacity >= 1
      ensures View() == Fresh(capacity, ttl, now) && Inv(View())
    {
      this.capacity, this.ttl, this.now := capacity, ttl, now;
      entries, order, inflight, flights, tasks := map[], [], map[], [], [];
      uses, ticks, expired := map[], 0, {};
    }

    method MoveToEnd(key: Key)
      modifies this`order, this`uses, this`ticks
      ensures Held() == Touch(old(Held()), key)
    {
      order := Drop(order, key) + [key];
      uses := uses[key := ticks];
      ticks := ticks + 1;
    }

    method Lookup(key: Key, clock: real) returns (cached: Option<Cached>)
      modifies this`entries, this`order, this`uses, this`ticks, this`expired
      ensures (Held(), cached) == GetFresh(old(Held()), key, clock, ttl)
      ensures var young := key in old(entries) && clock - old(entries)[key].created <= ttl;
              && cached == (if young then Some(old(entries)[key]) else None)
              && (young ==> entries == old(entries) && order != [] && order[|order| - 1] == key)
              && (!young ==> entries == old(entries) - {key})
      ensures key !in old(entries) ==> order == old(order)
    {
      if key !in entries {
        return None;
      }
      var entry := entries[key];
      if clock - entry.created > ttl {
        entries := entries - {key};
        order := Drop(order, key);
        expired := expired + {key};
        return None;
      }
      MoveToEnd(key);
      cached := Some(entry);
    }

    method Store(key: Key, span: Span, clock: real)
      requires ShelfOk(Held(), capacity)
      modifies this`entries, this`order, this`uses, this`ticks, this`expired
      ensures Held() == Put(old(Held()), key, Cached(span, clock), capacity)
    {
      InsertKeeps(Held(), key, Cached(span, clock), capacity);
      entries := entries[key := Cached(span, clock)];
      expired := expired - {key};
      MoveToEnd(key);
      assert Held() == Insert(old(Held()), key, Cached(span, clock));
      hide LruOk, ShelfOk, OrderOk, Evict;
      EvictSurplus();
    }

    method EvictSurplus()
      requires OrderOk(Held())
      modifies this`entries, this`order
      ensures Held() == Evict(old(Held()), capacity)
    {
      hide OrderOk;
      StoreSize(Held());
      while |entries| > capacity
        invariant OrderOk(Held()) && Evict(Held(), capacity) == Evict(old(Held()), capacity)
        invariant |entries| == |order|
        decreases |order|
      {
        EvictOrder(Held());
        entries := entries - {order[0]};
        order := order[1..];
        StoreSize(Held());
      }
    }

    /** A call of get_or_fetch up to its first await. */
    method Begin(key: Key, clock: real) returns (task: nat)
      requires Inv(View()) && clock >= now
      modifies this
      ensures View() == Next(old(View()), Request(key, clock)) && Inv(View())
      ensures task == |old(tasks)|
    {
      hide Inv, GetFresh, DoRequest;
      StepKeeps(View(), Request(key, clock));
      task := |tasks|;
      Admit(key, clock);
    }

    method Admit(key: Key, clock: real)
      modifies this
      ensures View() == DoRequest(old(View()), key, clock)
    {
      hide GetFresh;
      var cached := Lookup(key, clock);
      now := clock;
      if cached.Some? {
        tasks := tasks + [Task(key, Hit(cached.value, clock, |flights|), Some(Value(cached.value.value)))];
      } else if key in inflight {
        tasks := tasks + [Task(key, Waits(inflight[key]), None)];
      } else {
        inflight := inflight[key := |flights|];
        flights := flights + [Flight(key, |tasks|, Running)];
        tasks := tasks + [Task(key, Leads(|flights| - 1), None)];
      }
    }

    /** The leader's fetch returned. */
    method Complete(f: nat, span: Span, clock: real)
      requires Inv(View()) && Possible(View(), Succeed(f, span, clock))
      modifies this
      ensures View() == Next(old(View()), Succeed(f, span, clock)) && Inv(View())
    {
      LandsOn(View(), f);
      hide Inv, ShelfOk, DoSucceed;
      StepKeeps(View(), Succeed(f, span, clock));
      Deliver(f, span, clock);
    }

    method Deliver(f: nat, span: Span, clock: real)
      requires ShelfOk(Held(), capacity) && f < |flights| && flights[f].leader < |tasks|
      modifies this
      ensures View() == DoSucceed(old(View()), f, span, clock)
    {
      hide ShelfOk, Put;
      Store(flights[f].key, span, clock);
      now := clock;
      Resolve(f, Done(Cached(span, clock)));
    }

    /** The leader's fetch raised. */
    method Abandon(f: nat, e: Error)
      requires Inv(View()) && Possible(View(), Fail(f, e))
      modifies this
      ensures View() == Next(old(View()), Fail(f, e)) && Inv(View())
    {
      StepKeeps(View(), Fail(f, e));
      Resolve(f, Failed(e));
    }

    method Resolve(f: nat, o: Outcome)
      requires f < |flights| && flights[f].leader < |tasks|
      modifies this`inflight, this`flights, this`tasks
      ensures View() == Land(old(View()), f, o)
    {
      inflight := inflight - {flights[f].key};
      flights := flights[f := flights[f].(outcome := o)];
      var leader := flights[f].leader;
      tasks := tasks[leader := tasks[leader].(answer := AnswerOf(o))];
    }

    /** A waiter wakes up with the future it awaited. */
    method Wake(t: nat)
      requires Inv(View()) && Possible(View(), Resume(t))
      modifies this
      ensures View() == Next(old(View()), Resume(t)) && Inv(View())
    {
      StepKeeps(View(), Resume(t));
      tasks := tasks[t := tasks[t].(answer := AnswerOf(flights[tasks[t].role.flight].outcome))];
    }
  }
}
