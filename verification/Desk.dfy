/** The scheduler's whole account, as a value: which request is where, what the counters and
  * permits say, and what every client has been sent. `DeskOk` is what every step keeps. */
module Desks {
  import opened Basics
  import opened Backend
  import opened Runtime
  import opened Ledger

  /** The fixed part: configuration and bounds. */
  datatype Shop = Shop(c: Config, limit: nat, maxActive: nat, queueCapacity: nat, lookahead: nat)

  /** `channel`, `heap`, `admitted`, `waiting` and `running` are the five places a held request
    * can be. `registry` and `truncated` remember every request ever accepted, and those that
    * were cut short. */
  datatype Desk = Desk(
    channel: seq<Request>, heap: multiset<Request>, admitted: seq<Request>, waiting: seq<Request>, running: seq<Request>,
    n: Counters, slots: map<User, nat>, nextId: nat,
    events: map<nat, seq<Event>>, registry: map<nat, Request>, truncated: set<nat>, book: Book)

  /** Requests that have been sent nothing yet. */
  function Silent(d: Desk): multiset<Request> {
    multiset(d.channel) + d.heap + multiset(d.admitted) + multiset(d.waiting)
  }

  function Held(d: Desk): multiset<Request> {
    Silent(d) + multiset(d.running)
  }

  /** Held requests are distinct and are the ones accepted under their ids. */
  ghost predicate Identified(held: multiset<Request>, registry: map<nat, Request>, nextId: nat) {
    && (forall r :: r in held ==> held[r] == 1 && r.id in registry && registry[r.id] == r)
    && (forall id :: id in registry ==> id < nextId && registry[id].id == id)
  }

  ghost predicate AllQuiet(events: map<nat, seq<Event>>, m: multiset<Request>) {
    forall r :: r in m ==> r.id in events && events[r.id] == []
  }

  ghost predicate LogsOk(c: Config, registry: map<nat, Request>, events: map<nat, seq<Event>>, truncated: set<nat>)
    requires c.Valid()
  {
    && registry.Keys == events.Keys
    && forall id :: id in registry ==> LogOk(c, registry[id], events[id], id in truncated)
  }

  /** Every request ever accepted is held or has ended, and not both. */
  ghost predicate Accounted(ends: map<nat, Cause>, held: multiset<Request>, registry: map<nat, Request>) {
    && (forall id :: id in ends ==> id in registry)
    && (forall r :: r in held ==> r.id !in ends)
    && (forall id :: id in registry && id !in ends ==> registry[id] in held)
  }

  ghost predicate AllConcluded(book: Book, registry: map<nat, Request>, events: map<nat, seq<Event>>) {
    forall id :: id in registry ==> id in events && Concluded(book, id, events[id])
  }

  /** The account of how requests have ended. */
  ghost predicate BookOk(
    book: Book, n: Counters, held: multiset<Request>, registry: map<nat, Request>, events: map<nat, seq<Event>>)
  {
    Tallied(n, book.ends) && Accounted(book.ends, held, registry) && AllConcluded(book, registry, events)
  }

  /** A prompt that ends outside the vocabulary, on a backend that does not check a whole batch before
    * it runs any of it: it can starve the others. See `Batching.BatchMatchesPlainIff`. */
  predicate Harmful(c: Config, r: Request) {
    !c.net.fused && !EndsBelow(r.spec.prompt, c.net.vocab)
  }

  /** What it takes for a request to be cut short: a window narrower than the guesses on a backend
    * that spills, or a harmful request among those accepted. */
  ghost predicate MayCut(s: Shop, registry: map<nat, Request>) {
    s.c.net.CanRefuse(s.lookahead) || exists id :: id in registry && Harmful(s.c, registry[id])
  }

  ghost predicate Books(
    s: Shop, n: Counters, slots: map<User, nat>, held: multiset<Request>,
    registry: map<nat, Request>, nextId: nat, events: map<nat, seq<Event>>, truncated: set<nat>, book: Book)
  {
    && s.c.Valid()
    && Balanced(n, held) && Permitted(slots, s.limit, held) && Identified(held, registry, nextId)
    && LogsOk(s.c, registry, events, truncated)
    && (truncated != {} ==> MayCut(s, registry))
    && BookOk(book, n, held, registry, events)
  }

  ghost predicate DeskOk(s: Shop, d: Desk) {
    && Books(s, d.n, d.slots, Held(d), d.registry, d.nextId, d.events, d.truncated, d.book)
    && AllQuiet(d.events, Silent(d))
    && s.maxActive >= 1 && |d.running| + |d.waiting| + |d.admitted| <= s.maxActive
  }

  lemma OpenDesk(s: Shop, d: Desk)
    requires DeskOk(s, d)
    ensures Books(s, d.n, d.slots, Held(d), d.registry, d.nextId, d.events, d.truncated, d.book)
    ensures AllQuiet(d.events, Silent(d)) && s.c.Valid()
    ensures s.maxActive >= 1 && |d.running| + |d.waiting| + |d.admitted| <= s.maxActive
  {
  }

  lemma CloseDesk(s: Shop, d: Desk)
    requires Books(s, d.n, d.slots, Held(d), d.registry, d.nextId, d.events, d.truncated, d.book)
    requires AllQuiet(d.events, Silent(d))
    requires s.maxActive >= 1 && |d.running| + |d.waiting| + |d.admitted| <= s.maxActive
    ensures DeskOk(s, d)
  {
  }

  // ---------------------------------------------------------------- one request at a time

  function Return(slots: map<User, nat>, u: User): map<User, nat> {
    if u in slots then slots[u := slots[u] + 1] else slots
  }

  /** The account after `r`, already taken from its place, is settled with `log` as its last word. */
  function Settled(d: Desk, r: Request, cause: Cause, log: seq<Event>, cut: bool): Desk {
    d.(n := Count(d.n, cause), slots := Return(d.slots, r.spec.user), events := d.events[r.id := log],
       truncated := if cut then d.truncated + {r.id} else d.truncated, book := Closed(d.book, r.id, cause, log))
  }

  lemma BookSettles(
    book: Book, n: Counters, held: multiset<Request>, registry: map<nat, Request>, nextId: nat,
    events: map<nat, seq<Event>>, r: Request, cause: Cause, log: seq<Event>)
    requires BookOk(book, n, held, registry, events) && Identified(held, registry, nextId) && r in held
    requires OnlyTokens(log) || EndsFor(log, cause)
    ensures BookOk(Closed(book, r.id, cause, log), Count(n, cause), held - multiset{r}, registry, events[r.id := log])
  {
    TallyOne(n, book.ends, r.id, cause);
    hide Tallied, OnlyTokens, EndsFor, Count;
    var book', held', events' := Closed(book, r.id, cause, log), held - multiset{r}, events[r.id := log];
    forall id | id in registry && id !in book'.ends ensures registry[id] in held' {
      assert registry[id] in held;
    }
    forall q | q in held' ensures q.id !in book'.ends {
      assert q in held && (q.id == r.id ==> q == r);
    }
    forall id | id in registry ensures Concluded(book', id, events'[id]) {
      assert id != r.id ==> Concluded(book, id, events[id]);
    }
  }

  lemma LogsSettle(
    c: Config, registry: map<nat, Request>, events: map<nat, seq<Event>>, truncated: set<nat>, id: nat, log: seq<Event>, cut: bool)
    requires c.Valid() && LogsOk(c, registry, events, truncated)
    requires id in registry && LogOk(c, registry[id], log, id in truncated || cut)
    ensures LogsOk(c, registry, events[id := log], if cut then truncated + {id} else truncated)
  {
    hide LogOk, Config.Valid;
  }

  lemma BooksSettle(
    s: Shop, n: Counters, slots: map<User, nat>, held: multiset<Request>,
    registry: map<nat, Request>, nextId: nat, events: map<nat, seq<Event>>, truncated: set<nat>, book: Book,
    r: Request, cause: Cause, log: seq<Event>, cut: bool)
    requires Books(s, n, slots, held, registry, nextId, events, truncated, book) && r in held
    requires cut ==> MayCut(s, registry)
    requires LogOk(s.c, r, log, r.id in truncated || cut) && (OnlyTokens(log) || EndsFor(log, cause))
    ensures Books(s, Count(n, cause), Return(slots, r.spec.user), held - multiset{r},
                  registry, nextId, events[r.id := log], if cut then truncated + {r.id} else truncated,
                  Closed(book, r.id, cause, log))
  {
    hide Balanced, Permitted, LogsOk, LogOk, MayCut, BookOk, Closed, Count, Config.Valid, OnlyTokens, EndsFor;
    SettleOne(n, held, r, cause);
    PermitReturned(slots, s.limit, held, r);
    BookSettles(book, n, held, registry, nextId, events, r, cause, log);
    assert registry[r.id] == r;
    LogsSettle(s.c, registry, events, truncated, r.id, log, cut);
  }

  lemma BookSends(
    book: Book, n: Counters, held: multiset<Request>, registry: map<nat, Request>, events: map<nat, seq<Event>>, r: Request,
    log: seq<Event>)
    requires BookOk(book, n, held, registry, events) && r in held && OnlyTokens(log)
    ensures BookOk(book, n, held, registry, events[r.id := log])
  {
    hide Tallied, OnlyTokens, EndsFor;
    var events' := events[r.id := log];
    forall id | id in registry ensures id in events' && Concluded(book, id, events'[id]) {
      assert Concluded(book, id, events[id]);
    }
  }

  /** A held request has been sent tokens alone. */
  lemma HeldLog(
    book: Book, n: Counters, held: multiset<Request>, registry: map<nat, Request>, nextId: nat,
    events: map<nat, seq<Event>>, r: Request)
    requires BookOk(book, n, held, registry, events) && Identified(held, registry, nextId) && r in held
    ensures r.id in events && OnlyTokens(events[r.id]) && r.id !in book.ends
  {
    hide Tallied;
    assert Concluded(book, r.id, events[r.id]);
  }

  lemma BooksSend(
    s: Shop, n: Counters, slots: map<User, nat>, held: multiset<Request>,
    registry: map<nat, Request>, nextId: nat, events: map<nat, seq<Event>>, truncated: set<nat>, book: Book,
    r: Request, log: seq<Event>)
    requires Books(s, n, slots, held, registry, nextId, events, truncated, book) && r in held
    requires LogOk(s.c, r, log, r.id in truncated) && OnlyTokens(log)
    ensures Books(s, n, slots, held, registry, nextId, events[r.id := log], truncated, book)
  {
    BookSends(book, n, held, registry, events, r, log);
    hide Balanced, Permitted, LogOk, MayCut, BookOk;
    assert registry[r.id] == r;
  }

  lemma MayCutStill(s: Shop, registry: map<nat, Request>, r: Request)
    requires MayCut(s, registry) && r.id !in registry
    ensures MayCut(s, registry[r.id := r])
  {
    if !s.c.net.CanRefuse(s.lookahead) {
      var id :| id in registry && Harmful(s.c, registry[id]);
      assert id in registry[r.id := r] && Harmful(s.c, registry[r.id := r][id]);
    }
  }

  lemma BookSubmits(
    book: Book, n: Counters, held: multiset<Request>, registry: map<nat, Request>, nextId: nat,
    events: map<nat, seq<Event>>, r: Request)
    requires BookOk(book, n, held, registry, events) && Identified(held, registry, nextId) && r.id == nextId
    ensures BookOk(book, n.(submitted := n.submitted + 1), held + multiset{r}, registry[nextId := r], events[nextId := []])
  {
    hide EndsFor;
    var registry', events' := registry[nextId := r], events[nextId := []];
    forall id | id in registry' ensures id in events' && Concluded(book, id, events'[id]) {
      assert id != nextId ==> Concluded(book, id, events[id]);
    }
  }

  lemma BooksSubmit(
    s: Shop, n: Counters, slots: map<User, nat>, held: multiset<Request>,
    registry: map<nat, Request>, nextId: nat, events: map<nat, seq<Event>>, truncated: set<nat>, book: Book, r: Request)
    requires Books(s, n, slots, held, registry, nextId, events, truncated, book)
    requires r.spec.user in slots && slots[r.spec.user] > 0 && r.id == nextId
    ensures Books(s, n.(submitted := n.submitted + 1), slots[r.spec.user := slots[r.spec.user] - 1],
                  held + multiset{r}, registry[nextId := r], nextId + 1, events[nextId := []], truncated, book)
  {
    hide Permitted, BookOk, MayCut, Config.Valid, Mine;
    PermitTaken(slots, s.limit, held, r);
    BookSubmits(book, n, held, registry, nextId, events, r);
    if truncated != {} {
      MayCutStill(s, registry, r);
    }
    assert r !in held;
    assert Shaped([]) && Tokens([]) == [];
  }

  lemma BooksRefuse(
    s: Shop, n: Counters, slots: map<User, nat>, held: multiset<Request>,
    registry: map<nat, Request>, nextId: nat, events: map<nat, seq<Event>>, truncated: set<nat>, book: Book,
    user: User, n': Counters, nextId': nat)
    requires Books(s, n, slots, held, registry, nextId, events, truncated, book)
    requires SameEnds(n, n') && n'.submitted == n.submitted && nextId' >= nextId
    ensures Books(s, n', UserSlots(slots, s.limit, user), held, registry, nextId', events, truncated, book)
    ensures user in UserSlots(slots, s.limit, user)
    ensures UserSlots(slots, s.limit, user)[user] + Mine(held, user) == s.limit
  {
    hide LogsOk, MayCut, UserSlots, Accounted, AllConcluded, Ended, Config.Valid, Mine;
    TableEviction(slots, s.limit, held, user);
    assert Even(UserSlots(slots, s.limit, user), s.limit, held, user);
    hide Permitted;
  }

  /** Nothing has ended in between. */
  predicate SameEnds(n: Counters, n': Counters) {
    n'.completed == n.completed && n'.cancelled == n.cancelled && n'.timedOut == n.timedOut && n'.failed == n.failed
  }

  lemma QuietApart(events: map<nat, seq<Event>>, m: multiset<Request>, id: nat, log: seq<Event>)
    requires AllQuiet(events, m) && forall s :: s in m ==> s.id != id
    ensures AllQuiet(events[id := log], m)
  {
  }

  /** Two requests held in different places have different ids. */
  lemma Apart(held: multiset<Request>, registry: map<nat, Request>, nextId: nat, r: Request, others: multiset<Request>)
    requires Identified(held, registry, nextId) && multiset{r} + others <= held
    ensures forall s :: s in others ==> s.id != r.id
  {
    assert (multiset{r} + others)[r] <= held[r];
    forall s | s in others
      ensures s.id != r.id
    {
      assert s in multiset{r} + others;
    }
  }

  lemma NobodyOwes(slots: map<User, nat>, limit: nat, held: multiset<Request>)
    requires slots == map[] && held == multiset{}
    ensures Permitted(slots, limit, held)
  {
    assert forall u :: Even(slots, limit, held, u);
  }

  lemma NobodyListens(c: Config, registry: map<nat, Request>, events: map<nat, seq<Event>>, truncated: set<nat>)
    requires c.Valid() && registry == map[] && events == map[]
    ensures LogsOk(c, registry, events, truncated)
  {
    hide Config.Valid, LogOk;
  }

  lemma EmptyBooks(
    s: Shop, n: Counters, slots: map<User, nat>, held: multiset<Request>,
    registry: map<nat, Request>, nextId: nat, events: map<nat, seq<Event>>, truncated: set<nat>, book: Book)
    requires s.c.Valid() && n == Counters(0, 0, 0, 0, 0, 0, 0) && slots == map[] && held == multiset{}
    requires registry == map[] && events == map[] && truncated == {} && book == Book(map[], {})
    ensures Books(s, n, slots, held, registry, nextId, events, truncated, book)
  {
    hide Permitted, LogsOk, Config.Valid, BookOk, MayCut, Balanced, Identified;
    NobodyCounted(n, held);
    NobodyHeld(held, registry, nextId);
    NobodyOwes(slots, s.limit, held);
    NobodyListens(s.c, registry, events, truncated);
    NobodyEnded(book, n, held, registry, events);
  }

  lemma NobodyCounted(n: Counters, held: multiset<Request>)
    requires n.submitted == n.Settled() && held == multiset{}
    ensures Balanced(n, held)
  {
  }

  lemma NobodyHeld(held: multiset<Request>, registry: map<nat, Request>, nextId: nat)
    requires held == multiset{} && registry == map[]
    ensures Identified(held, registry, nextId)
  {
  }

  lemma NobodyEnded(
    book: Book, n: Counters, held: multiset<Request>, registry: map<nat, Request>, events: map<nat, seq<Event>>)
    requires n == Counters(0, 0, 0, 0, 0, 0, 0) && held == multiset{} && registry == map[] && book == Book(map[], {})
    ensures BookOk(book, n, held, registry, events)
  {
    hide Concluded;
    assert forall cause :: Ended(book.ends, cause) == {};
  }

  lemma EmptyDesk(s: Shop)
    requires s.c.Valid() && s.maxActive >= 1
    ensures DeskOk(s, Desk([], multiset{}, [], [], [], Counters(0, 0, 0, 0, 0, 0, 0), map[], 0, map[], map[], {}, Book(map[], {})))
  {
    hide Books, Config.Valid;
    var d := Desk([], multiset{}, [], [], [], Counters(0, 0, 0, 0, 0, 0, 0), map[], 0, map[], map[], {}, Book(map[], {}));
    assert Silent(d) == multiset{} && Held(d) == multiset{};
    EmptyBooks(s, d.n, d.slots, Held(d), d.registry, d.nextId, d.events, d.truncated, d.book);
  }

  // ---------------------------------------------------------------- submission

  function Refused(s: Shop, d: Desk, user: User, n': Counters, nextId': nat): Desk {
    d.(n := n', slots := UserSlots(d.slots, s.limit, user), nextId := nextId')
  }

  function Submitted(s: Shop, d: Desk, spec: Spec): Desk {
    var slots := UserSlots(d.slots, s.limit, spec.user);
    var r := Request(d.nextId, spec);
    d.(channel := d.channel + [r], n := d.n.(submitted := d.n.submitted + 1),
       slots := if spec.user in slots && slots[spec.user] > 0 then slots[spec.user := slots[spec.user] - 1] else slots,
       nextId := d.nextId + 1, events := d.events[d.nextId := []], registry := d.registry[d.nextId := r])
  }

  /** The account after an accepted request is filed; its user's permits have been looked up. */
  function Filed(d: Desk, r: Request): Desk
    requires r.spec.user in d.slots && d.slots[r.spec.user] > 0
  {
    d.(channel := d.channel + [r], n := d.n.(submitted := d.n.submitted + 1),
       slots := d.slots[r.spec.user := d.slots[r.spec.user] - 1],
       nextId := d.nextId + 1, events := d.events[r.id := []], registry := d.registry[r.id := r])
  }

  lemma SubmittedIs(s: Shop, d: Desk, spec: Spec, slots: map<User, nat>)
    requires slots == UserSlots(d.slots, s.limit, spec.user) && spec.user in slots && slots[spec.user] > 0
    ensures Submitted(s, d, spec) == Filed(d.(slots := slots), Request(d.nextId, spec))
  {
    hide UserSlots;
  }

  lemma RefuseKeeps(s: Shop, d: Desk, user: User, n': Counters, nextId': nat)
    requires DeskOk(s, d)
    requires SameEnds(d.n, n') && n'.submitted == d.n.submitted && nextId' >= d.nextId
    ensures DeskOk(s, Refused(s, d, user, n', nextId'))
    ensures user in UserSlots(d.slots, s.limit, user)
    ensures UserSlots(d.slots, s.limit, user)[user] + Mine(Held(d), user) == s.limit
  {
    hide Books;
    BooksRefuse(s, d.n, d.slots, Held(d), d.registry, d.nextId, d.events, d.truncated, d.book, user, n', nextId');
  }

  lemma SubmitKeeps(s: Shop, d: Desk, spec: Spec)
    requires DeskOk(s, d)
    requires spec.user in UserSlots(d.slots, s.limit, spec.user) && UserSlots(d.slots, s.limit, spec.user)[spec.user] > 0
    ensures DeskOk(s, Submitted(s, d, spec))
    ensures Held(Submitted(s, d, spec)) == Held(d) + multiset{Request(d.nextId, spec)}
  {
    hide Books, Silent, Held, UserSlots, AllQuiet, DeskOk, Config.Valid;
    var slots := UserSlots(d.slots, s.limit, spec.user);
    var r := Request(d.nextId, spec);
    OpenDesk(s, d);
    SubmitPlaces(s, d, spec);
    FreshId(s, d);
    QuietApart(d.events, Silent(d), r.id, []);
    QuietToo(d.events[r.id := []], Silent(d), r);
    BooksRefuse(s, d.n, d.slots, Held(d), d.registry, d.nextId, d.events, d.truncated, d.book, spec.user, d.n, d.nextId);
    BooksSubmit(s, d.n, slots, Held(d), d.registry, d.nextId, d.events, d.truncated, d.book, r);
    CloseDesk(s, Submitted(s, d, spec));
  }

  lemma QuietToo(events: map<nat, seq<Event>>, m: multiset<Request>, r: Request)
    requires AllQuiet(events, m) && r.id in events && events[r.id] == []
    ensures AllQuiet(events, m + multiset{r})
  {
  }

  lemma SubmitPlaces(s: Shop, d: Desk, spec: Spec)
    ensures Silent(Submitted(s, d, spec)) == Silent(d) + multiset{Request(d.nextId, spec)}
    ensures Held(Submitted(s, d, spec)) == Held(d) + multiset{Request(d.nextId, spec)}
  {
    hide UserSlots;
  }

  lemma FreshId(s: Shop, d: Desk)
    requires DeskOk(s, d)
    ensures forall q :: q in Silent(d) ==> q.id != d.nextId
    ensures forall q :: q in d.running ==> q.id != d.nextId
    ensures d.nextId !in d.events
  {
    assert forall q :: q in Silent(d) ==> q in Held(d);
    assert forall q :: q in d.running ==> q in multiset(d.running) && q in Held(d);
  }

  // ---------------------------------------------------------------- the heap

  function Drained(d: Desk): Desk {
    d.(channel := [], heap := d.heap + multiset(d.channel))
  }

  function Unheaped(d: Desk, r: Request): Desk {
    d.(heap := d.heap - multiset{r})
  }

  function Admitted(d: Desk, r: Request): Desk {
    d.(heap := d.heap - multiset{r}, admitted := d.admitted + [r])
  }

  lemma DrainKeeps(s: Shop, d: Desk)
    requires DeskOk(s, d)
    ensures DeskOk(s, Drained(d)) && Held(Drained(d)) == Held(d)
  {
    assert Silent(Drained(d)) == Silent(d);
    hide Books, Silent;
  }

  lemma AdmitKeeps(s: Shop, d: Desk, r: Request)
    requires DeskOk(s, d) && r in d.heap && |d.running| + |d.waiting| + |d.admitted| < s.maxActive
    ensures DeskOk(s, Admitted(d, r)) && Held(Admitted(d, r)) == Held(d)
  {
    hide Books, Silent, AllQuiet, Config.Valid;
    AdmitPlaces(d, r);
  }

  lemma AdmitPlaces(d: Desk, r: Request)
    requires r in d.heap
    ensures Silent(Admitted(d, r)) == Silent(d)
  {
  }

  /** Take `r` from a silent place and settle it. */
  lemma SilentSettles(s: Shop, d: Desk, without: Desk, r: Request, cause: Cause, log: seq<Event>)
    requires DeskOk(s, d) && r in Silent(d)
    requires without == d.(channel := without.channel, heap := without.heap, admitted := without.admitted, waiting := without.waiting)
    requires Silent(without) == Silent(d) - multiset{r}
    requires |without.waiting| + |without.admitted| <= |d.waiting| + |d.admitted|
    requires without.running == d.running
    requires (log == [] || log == [Error(cause)]) && cause != Completed
    ensures DeskOk(s, Settled(without, r, cause, log, false))
    ensures Held(Settled(without, r, cause, log, false)) == Held(d) - multiset{r}
    ensures forall q :: q in d.running ==> q.id != r.id
  {
    hide Books, Silent, Held, LogOk, AllQuiet, DeskOk, Config.Valid, Return, Count;
    var d' := Settled(without, r, cause, log, false);
    OpenDesk(s, d);
    SilentApart(s, d, without, r);
    SilentQuieter(d.events, Silent(d), r);
    QuietApart(d.events, Silent(without), r.id, log);
    ShortLog(s.c, r, cause, log, r.id in d.truncated);
    SilentLeaves(d, without, r);
    SamePlaces(without, d');
    BooksSettle(s, d.n, d.slots, Held(d), d.registry, d.nextId, d.events, d.truncated, d.book, r, cause, log, false);
    CloseDesk(s, d');
  }

  lemma SilentQuieter(events: map<nat, seq<Event>>, m: multiset<Request>, r: Request)
    requires AllQuiet(events, m)
    ensures AllQuiet(events, m - multiset{r})
  {
  }

  lemma SamePlaces(d: Desk, d': Desk)
    requires d'.channel == d.channel && d'.heap == d.heap && d'.admitted == d.admitted
    requires d'.waiting == d.waiting && d'.running == d.running
    ensures Silent(d') == Silent(d) && Held(d') == Held(d)
  {
  }

  lemma SilentLeaves(d: Desk, d': Desk, r: Request)
    requires r in Silent(d) && Silent(d') == Silent(d) - multiset{r} && d'.running == d.running
    ensures r in Held(d) && Held(d') == Held(d) - multiset{r}
  {
    hide Silent;
  }

  lemma SilentApart(s: Shop, d: Desk, without: Desk, r: Request)
    requires DeskOk(s, d) && r in Silent(d) && Silent(without) == Silent(d) - multiset{r}
    ensures forall q :: q in Silent(without) ==> q.id != r.id
    ensures forall q :: q in d.running ==> q.id != r.id
  {
    hide Silent;
    Apart(Held(d), d.registry, d.nextId, r, Silent(without));
    Apart(Held(d), d.registry, d.nextId, r, multiset(d.running));
    assert forall q :: q in d.running ==> q in multiset(d.running);
  }

  lemma ShortLog(c: Config, r: Request, cause: Cause, log: seq<Event>, cut: bool)
    requires c.Valid() && (log == [] || log == [Error(cause)])
    ensures LogOk(c, r, log, cut)
  {
    assert LogOk(c, r, [], cut);
    ErrorEnds(c, r, [], cause, cut);
    assert [] + [Error(cause)] == [Error(cause)];
  }

  // ---------------------------------------------------------------- admission and prefill

  function StartedPrefill(d: Desk): Desk
    requires d.admitted != []
  {
    d.(admitted := d.admitted[1..], waiting := d.waiting + [d.admitted[0]])
  }

  function Unadmitted(d: Desk): Desk
    requires d.admitted != []
  {
    d.(admitted := d.admitted[1..])
  }

  function RotatedWaiting(d: Desk): Desk
    requires d.waiting != []
  {
    d.(waiting := d.waiting[1..] + [d.waiting[0]])
  }

  function Unwaiting(d: Desk): Desk
    requires d.waiting != []
  {
    d.(waiting := d.waiting[1..])
  }

  function Promoted(d: Desk): Desk
    requires d.waiting != []
  {
    d.(waiting := d.waiting[1..], running := d.running + [d.waiting[0]])
  }

  /** What becomes of a request when its turn comes: it is settled, and perhaps sent an error; it goes on
    * to decoding; or it stays where it is, at the back of the line. */
  datatype Fate = Dropped(cause: Cause, sent: bool) | Risen | Kept

  function LastWord(fate: Fate): seq<Event>
    requires fate.Dropped?
  {
    if fate.sent then [Error(fate.cause)] else []
  }

  /** The account after the first prefilling request's turn. */
  function Turned(d: Desk, fate: Fate): Desk
    requires d.waiting != []
  {
    match fate
    case Dropped(cause, _) => Settled(Unwaiting(d), d.waiting[0], cause, LastWord(fate), false)
    case Risen => Promoted(d)
    case Kept => RotatedWaiting(d)
  }

  /** The account after as many turns. */
  function TurnedAll(d: Desk, fates: seq<Fate>): (r: Desk)
    requires |fates| <= |d.waiting|
    ensures |r.waiting| >= |d.waiting| - |fates|
  {
    if fates == [] then d else Turned(TurnedAll(d, fates[..|fates| - 1]), fates[|fates| - 1])
  }

  /** The requests with a given fate, in order. */
  function With(rs: seq<Request>, fates: seq<Fate>, fate: Fate): seq<Request>
    requires |fates| == |rs|
  {
    if rs == [] then []
    else
      var last := |rs| - 1;
      With(rs[..last], fates[..last], fate) + if fates[last] == fate then [rs[last]] else []
  }

  lemma OneTurn(d: Desk, fate: Fate)
    requires d.waiting != []
    ensures Turned(d, fate).waiting == d.waiting[1..] + if fate == Kept then [d.waiting[0]] else []
    ensures Turned(d, fate).running == d.running + if fate == Risen then [d.waiting[0]] else []
  {
  }

  lemma WithOne(rs: seq<Request>, fates: seq<Fate>, fate: Fate)
    requires |fates| == |rs| > 0
    ensures
      var last := |rs| - 1;
      With(rs, fates, fate) == With(rs[..last], fates[..last], fate) + if fates[last] == fate then [rs[last]] else []
  {
  }

  lemma HeadThenRest<T>(whole: seq<T>, i: nat, back: seq<T>, more: seq<T>)
    requires i < |whole|
    ensures whole[i..] + back != [] && (whole[i..] + back)[0] == whole[i]
    ensures (whole[i..] + back)[1..] + more == whole[i + 1..] + (back + more)
  {
  }

  /** After a turn each, those who stayed wait in order behind those still to come, and those who rose
    * decode in order behind those who did. */
  lemma {:induction false} TurnsSort(d: Desk, fates: seq<Fate>)
    requires |fates| <= |d.waiting|
    ensures
      var r, done := TurnedAll(d, fates), d.waiting[..|fates|];
      && r.waiting == d.waiting[|fates|..] + With(done, fates, Kept)
      && r.running == d.running + With(done, fates, Risen)
    decreases |fates|
  {
    if fates != [] {
      var last := |fates| - 1;
      var front, done := fates[..last], d.waiting[..|fates|];
      hide Turned;
      TurnsSort(d, front);
      assert done[..last] == d.waiting[..last];
      WithOne(done, fates, Kept);
      WithOne(done, fates, Risen);
      OneTurn(TurnedAll(d, front), fates[last]);
      hide With;
      HeadThenRest(d.waiting, last, With(done[..last], front, Kept), if fates[last] == Kept then [d.waiting[last]] else []);
    }
  }

  lemma HeadApart(xs: seq<Request>)
    requires xs != []
    ensures multiset(xs) == multiset{xs[0]} + multiset(xs[1..])
  {
    assert xs == [xs[0]] + xs[1..];
  }

  lemma StartPrefillKeeps(s: Shop, d: Desk)
    requires DeskOk(s, d) && d.admitted != []
    ensures DeskOk(s, StartedPrefill(d)) && Held(StartedPrefill(d)) == Held(d)
  {
    hide Books, Silent, AllQuiet, Config.Valid;
    StartPlaces(d);
  }

  lemma StartPlaces(d: Desk)
    requires d.admitted != []
    ensures Silent(StartedPrefill(d)) == Silent(d)
  {
    HeadApart(d.admitted);
  }

  lemma RotateWaitingKeeps(s: Shop, d: Desk)
    requires DeskOk(s, d) && d.waiting != []
    ensures DeskOk(s, RotatedWaiting(d)) && Held(RotatedWaiting(d)) == Held(d)
  {
    hide Books, Silent, AllQuiet, Config.Valid;
    RotatePlaces(d);
  }

  lemma RotatePlaces(d: Desk)
    requires d.waiting != []
    ensures Silent(RotatedWaiting(d)) == Silent(d)
  {
    HeadApart(d.waiting);
  }

  lemma PromoteKeeps(s: Shop, d: Desk)
    requires DeskOk(s, d) && d.waiting != []
    ensures DeskOk(s, Promoted(d)) && Held(Promoted(d)) == Held(d)
    ensures d.waiting[0].id in d.events && d.events[d.waiting[0].id] == []
  {
    hide Books;
    HeadApart(d.waiting);
    assert Silent(d) == Silent(Promoted(d)) + multiset{d.waiting[0]};
    hide Silent;
    assert Held(Promoted(d)) == Held(d);
  }

  lemma SettleAdmittedKeeps(s: Shop, d: Desk, cause: Cause, log: seq<Event>)
    requires DeskOk(s, d) && d.admitted != [] && (log == [] || log == [Error(cause)]) && cause != Completed
    ensures DeskOk(s, Settled(Unadmitted(d), d.admitted[0], cause, log, false))
    ensures Held(Settled(Unadmitted(d), d.admitted[0], cause, log, false)) == Held(d) - multiset{d.admitted[0]}
    ensures forall q :: q in d.running ==> q.id != d.admitted[0].id
  {
    hide Books, Held, LogOk, Closed, AllQuiet;
    HeadApart(d.admitted);
    SilentSettles(s, d, Unadmitted(d), d.admitted[0], cause, log);
  }

  lemma SettleWaitingKeeps(s: Shop, d: Desk, cause: Cause, log: seq<Event>)
    requires DeskOk(s, d) && d.waiting != [] && (log == [] || log == [Error(cause)]) && cause != Completed
    ensures DeskOk(s, Settled(Unwaiting(d), d.waiting[0], cause, log, false))
    ensures Held(Settled(Unwaiting(d), d.waiting[0], cause, log, false)) == Held(d) - multiset{d.waiting[0]}
    ensures forall q :: q in d.running ==> q.id != d.waiting[0].id
  {
    hide Books, Held, LogOk, Closed, AllQuiet;
    HeadApart(d.waiting);
    SilentSettles(s, d, Unwaiting(d), d.waiting[0], cause, log);
  }

  lemma QueuedIsKnown(s: Shop, d: Desk, r: Request)
    requires DeskOk(s, d) && r in d.heap
    ensures r.id in d.events && d.events[r.id] == []
  {
    assert r in Silent(d);
  }

  lemma SettleHeapKeeps(s: Shop, d: Desk, r: Request)
    requires DeskOk(s, d) && r in d.heap && r.id in d.events
    ensures DeskOk(s, Settled(Unheaped(d, r), r, Cancelled, d.events[r.id], false))
    ensures Held(Settled(Unheaped(d, r), r, Cancelled, d.events[r.id], false)) == Held(d) - multiset{r}
    ensures forall q :: q in d.running ==> q.id != r.id
  {
    assert r in Silent(d);
    assert Silent(Unheaped(d, r)) == Silent(d) - multiset{r};
    SilentSettles(s, d, Unheaped(d, r), r, Cancelled, d.events[r.id]);
  }

  // ---------------------------------------------------------------- decoding

  function RotatedRunning(d: Desk): Desk
    requires d.running != []
  {
    d.(running := d.running[1..] + [d.running[0]])
  }

  function Unrunning(d: Desk): Desk
    requires d.running != []
  {
    d.(running := d.running[1..])
  }

  /** The account after the first running request has been looked at between tokens. */
  function Checked(d: Desk, fate: Fate): Desk
    requires d.running != [] && d.running[0].id in d.events
  {
    match fate
    case Dropped(cause, _) =>
      Settled(Unrunning(d), d.running[0], cause, d.events[d.running[0].id] + LastWord(fate), false)
    case _ => RotatedRunning(d)
  }

  /** The account after as many have been looked at. */
  function CheckedAll(d: Desk, fates: seq<Fate>): (r: Desk)
    requires |fates| <= |d.running| && Known(d)
    ensures |r.running| >= |d.running| - |fates| && Known(r)
  {
    if fates == [] then d else Checked(CheckedAll(d, fates[..|fates| - 1]), fates[|fates| - 1])
  }

  /** Every running request's client has a log. */
  predicate Known(d: Desk) { forall q :: q in d.running ==> q.id in d.events }

  /** What a step came to for a running request: the tokens it produced, why it stopped if it did, how many of
    * them reached the client, whether the client was there to be told the end, and whether it was cut short. */
  datatype Step = Step(out: seq<Token>, stop: Option<StopReason>, sent: nat, here: bool, cut: bool) {
    predicate Fits() { sent <= |out| }

    /** Whether the request goes on decoding. */
    predicate Stays() { sent == |out| && stop.None? }

    /** The client's log after the step: the tokens that reached it, and the end if there was one to tell. */
    function LogAfter(log: seq<Event>): seq<Event>
      requires Fits()
    {
      var said := Sent(log, out[..sent]);
      if sent == |out| && stop.Some? && here then said + [Done(stop.value)] else said
    }
  }

  /** The account after the first running request's step: it leaves if its client was found gone, and if it
    * stopped, which completes it; otherwise it goes to the back of the line. */
  function AfterStep(d: Desk, st: Step): Desk
    requires d.running != [] && d.running[0].id in d.events && st.Fits()
  {
    var r := d.running[0];
    var log := st.LogAfter(d.events[r.id]);
    if st.sent < |st.out| then Settled(Unrunning(d), r, Cancelled, log, false)
    else if st.stop.Some? then Settled(Unrunning(d), r, Completed, log, st.cut)
    else RotatedRunning(d.(events := d.events[r.id := log]))
  }

  /** The account after as many steps. */
  function AfterSteps(d: Desk, steps: seq<Step>): (r: Desk)
    requires |steps| <= |d.running| && Known(d) && forall i :: 0 <= i < |steps| ==> steps[i].Fits()
    ensures |r.running| >= |d.running| - |steps| && Known(r)
  {
    if steps == [] then d else AfterStep(AfterSteps(d, steps[..|steps| - 1]), steps[|steps| - 1])
  }

  lemma OneAfter(d: Desk, st: Step)
    requires d.running != [] && Known(d) && st.Fits()
    ensures AfterSteps(d, [st]) == AfterStep(d, st)
  {
    hide AfterStep;
    assert [st][..0] == [];
  }

  lemma OneStep(d: Desk, st: Step)
    requires d.running != [] && d.running[0].id in d.events && st.Fits()
    ensures
      var r, d' := d.running[0], AfterStep(d, st);
      && d'.events == d.events[r.id := st.LogAfter(d.events[r.id])]
      && d'.running == d.running[1..] + (if st.Stays() then [r] else [])
      && d'.book.ends == (
        if st.sent < |st.out| then d.book.ends[r.id := Cancelled]
        else if st.stop.Some? then d.book.ends[r.id := Completed]
        else d.book.ends)
  {
  }

  /** After a step each, those still to come stand before those who stay, and have been sent nothing since. */
  lemma {:induction false} StepsLine(d: Desk, steps: seq<Step>)
    requires |steps| <= |d.running| && Known(d) && forall i :: 0 <= i < |steps| ==> steps[i].Fits()
    ensures d.running[|steps|..] <= AfterSteps(d, steps).running
    ensures forall id :: id in d.events ==> id in AfterSteps(d, steps).events
    ensures forall id :: id in d.events && (forall i :: 0 <= i < |steps| ==> d.running[i].id != id) ==>
      AfterSteps(d, steps).events[id] == d.events[id]
  {
    if steps != [] {
      var last := |steps| - 1;
      var d' := AfterSteps(d, steps[..last]);
      StepsLine(d, steps[..last]);
      assert d'.running[0] == d.running[last..][0] == d.running[last];
      OneStep(d', steps[last]);
      hide AfterStep;
      assert d.running[last..][1..] == d.running[|steps|..];
    }
  }

  ghost predicate DistinctIds(rs: seq<Request>) {
    forall i, j :: 0 <= i < j < |rs| ==> rs[i].id != rs[j].id
  }

  /** The next one to step is the next in line, and its client has been sent nothing since. */
  lemma NextToStep(d: Desk, steps: seq<Step>)
    requires |steps| < |d.running| && Known(d) && DistinctIds(d.running) && forall i :: 0 <= i < |steps| ==> steps[i].Fits()
    ensures
      var d', r := AfterSteps(d, steps), d.running[|steps|];
      d'.running != [] && d'.running[0] == r && r.id in d'.events && d'.events[r.id] == d.events[r.id]
  {
    StepsLine(d, steps);
    assert d.running[|steps|..][0] == d.running[|steps|];
    hide AfterSteps;
  }

  /** So each request's log is what its own step made of it, and it has ended exactly as its step says. */
  lemma {:induction false} StepsReach(d: Desk, steps: seq<Step>, i: nat)
    requires |steps| <= |d.running| && Known(d) && DistinctIds(d.running) && i < |steps|
    requires forall j :: 0 <= j < |steps| ==> steps[j].Fits()
    ensures
      var id, d' := d.running[i].id, AfterSteps(d, steps);
      && id in d'.events && d'.events[id] == steps[i].LogAfter(d.events[id])
      && (steps[i].sent < |steps[i].out| ==> id in d'.book.ends && d'.book.ends[id] == Cancelled)
      && (steps[i].sent == |steps[i].out| && steps[i].stop.Some? ==> id in d'.book.ends && d'.book.ends[id] == Completed)
      && (steps[i].Stays() ==> (d.running[i] in d'.running))
  {
    hide AfterStep, Step.LogAfter, DistinctIds;
    var last := |steps| - 1;
    var d' := AfterSteps(d, steps[..last]);
    NextToStep(d, steps[..last]);
    OneStep(d', steps[last]);
    IdsApart(d.running, i, last);
    if i < last {
      StepsReach(d, steps[..last], i);
      assert steps[i].Stays() ==> d.running[i] in d'.running[1..] by { InTail(d'.running, d.running[i]); }
    }
  }

  lemma IdsApart(rs: seq<Request>, i: nat, j: nat)
    requires DistinctIds(rs) && i <= j < |rs|
    ensures i < j ==> rs[i].id != rs[j].id
  {
  }

  lemma InTail(rs: seq<Request>, r: Request)
    requires rs != [] && rs[0] != r
    ensures r in rs ==> r in rs[1..]
  {
    if r in rs {
      var k :| 0 <= k < |rs| && rs[k] == r;
      assert rs[1..][k - 1] == r;
    }
  }

  /** What a step may come to for a request whose client has been sent `log`: tokens that follow, and an end
    * where decoding ends. `cut` marks an early end. */
  ghost predicate Took(c: Config, r: Request, log: seq<Event>, out: seq<Token>, stop: Option<StopReason>, cut: bool)
    requires c.Valid()
  {
    r.spec.prompt != []
    && var p, n, ctx := r.spec.params, |r.spec.prompt|, r.spec.prompt + Tokens(log);
    && Follows(c, p, n, ctx, out)
    && (stop.None? ==> out != [] && !cut)
    && (stop.Some? ==> IsNext(c, p, n, ctx + out, Err(stop.value)) || (cut && stop == Some(ContextFull)))
  }

  lemma RunningApart(s: Shop, d: Desk)
    requires DeskOk(s, d) && d.running != []
    ensures forall q :: q in d.running[1..] ==> q.id != d.running[0].id
    ensures forall q :: q in Silent(d) ==> q.id != d.running[0].id
    ensures d.running[0] in Held(d) && d.running[0].id in d.events
  {
    var r := d.running[0];
    HeadApart(d.running);
    Apart(Held(d), d.registry, d.nextId, r, multiset(d.running[1..]));
    Apart(Held(d), d.registry, d.nextId, r, Silent(d));
    assert forall q :: q in d.running[1..] ==> q in multiset(d.running[1..]);
  }

  lemma {:induction false} ChecksLine(d: Desk, fates: seq<Fate>)
    requires |fates| <= |d.running| && Known(d)
    ensures d.running[|fates|..] <= CheckedAll(d, fates).running
  {
    if fates != [] {
      var last := |fates| - 1;
      ChecksLine(d, fates[..last]);
      var d' := CheckedAll(d, fates[..last]);
      assert d'.running[0] == d.running[last..][0] == d.running[last];
      assert d.running[last..][1..] == d.running[|fates|..];
    }
  }

  lemma RunningDistinct(s: Shop, d: Desk)
    requires DeskOk(s, d)
    ensures DistinctIds(d.running)
  {
    assert Identified(Held(d), d.registry, d.nextId) && multiset(d.running) <= Held(d);
    hide DeskOk, Held, Identified;
    forall i, j | 0 <= i < j < |d.running| ensures d.running[i].id != d.running[j].id {
      TwoInLine(d.running, i, j);
      Apart(Held(d), d.registry, d.nextId, d.running[i], multiset{d.running[j]});
    }
  }

  lemma TwoInLine(rs: seq<Request>, i: nat, j: nat)
    requires i < j < |rs|
    ensures multiset{rs[i]} + multiset{rs[j]} <= multiset(rs)
  {
    assert rs == rs[..i] + [rs[i]] + rs[i + 1..j] + [rs[j]] + rs[j + 1..];
  }

  /** A running request has been sent tokens alone. */
  lemma RunningLog(s: Shop, d: Desk)
    requires DeskOk(s, d)
    ensures Known(d) && forall q :: q in d.running ==> OnlyTokens(d.events[q.id])
  {
    forall q | q in d.running ensures q.id in d.events && OnlyTokens(d.events[q.id]) {
      assert q in multiset(d.running) && q in Held(d);
      HeldLog(d.book, d.n, Held(d), d.registry, d.nextId, d.events, q);
    }
  }

  lemma RunningIsKnown(s: Shop, d: Desk, j: nat)
    requires DeskOk(s, d) && j < |d.running|
    ensures d.running[j].id in d.registry && d.registry[d.running[j].id] == d.running[j]
  {
    assert d.running[j] in Held(d);
  }

  lemma RotateRunningKeeps(s: Shop, d: Desk)
    requires DeskOk(s, d) && d.running != []
    ensures DeskOk(s, RotatedRunning(d)) && Held(RotatedRunning(d)) == Held(d)
  {
    HeadApart(d.running);
    assert Held(RotatedRunning(d)) == Held(d);
    assert Silent(RotatedRunning(d)) == Silent(d);
    hide Books, Silent, Held;
  }

  /** Sending to the first running request's client, as long as its log stays right. */
  lemma SendRunningKeeps(s: Shop, d: Desk, log: seq<Event>)
    requires DeskOk(s, d) && d.running != []
    requires LogOk(s.c, d.running[0], log, d.running[0].id in d.truncated) && OnlyTokens(log)
    ensures DeskOk(s, d.(events := d.events[d.running[0].id := log]))
  {
    var r := d.running[0];
    RunningApart(s, d);
    QuietApart(d.events, Silent(d), r.id, log);
    SamePlaces(d, d.(events := d.events[r.id := log]));
    hide Books, Silent, Held, LogOk;
    BooksSend(s, d.n, d.slots, Held(d), d.registry, d.nextId, d.events, d.truncated, d.book, r, log);
  }

  lemma SettleRunningKeeps(s: Shop, d: Desk, cause: Cause, log: seq<Event>, cut: bool)
    requires DeskOk(s, d) && d.running != [] && (cut ==> MayCut(s, d.registry))
    requires LogOk(s.c, d.running[0], log, d.running[0].id in d.truncated || cut)
    requires OnlyTokens(log) || EndsFor(log, cause)
    ensures DeskOk(s, Settled(Unrunning(d), d.running[0], cause, log, cut))
    ensures Held(Settled(Unrunning(d), d.running[0], cause, log, cut)) == Held(d) - multiset{d.running[0]}
  {
    hide Books, LogOk, MayCut, Config.Valid, AllQuiet, Count, Return;
    var r := d.running[0];
    var d' := Settled(Unrunning(d), r, cause, log, cut);
    HeadApart(d.running);
    RunningApart(s, d);
    assert Silent(d') == Silent(d);
    assert Held(d') == Held(d) - multiset{r};
    QuietApart(d.events, Silent(d), r.id, log);
    hide Silent, Held;
    BooksSettle(s, d.n, d.slots, Held(d), d.registry, d.nextId, d.events, d.truncated, d.book, r, cause, log, cut);
  }
}
