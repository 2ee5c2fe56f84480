/** The Leader's pending fees and the reservation tick (p2p/leader/leader.go:576-699,
    p2p/dispatch.go:594-656): an entry is offered in every reservation batch until a batch holding it
    was confirmed, it expired, or its task was released. The Leader is not locked while a batch is broadcast, so
    tasks are accepted and released between building a batch and committing it. */
module Leader {
  import opened FeeSplit
  import opened Ledger

  type User = seq<byte>
  datatype PendingEntry = PendingEntry(task: TaskId, maxFee: Tokens.uint64, expire: nat, user: Address,
                                       perRequest: bool, reserved: bool)
  datatype ReservationKey = ReservationKey(user: User, task: TaskId)
  type Fees = map<User, seq<PendingEntry>>

  // ---------- What the operations compute ----------

  predicate Live(e: PendingEntry, now: nat) { e.expire == 0 || now <= e.expire }

  predicate Wanted(e: PendingEntry) { !e.reserved && e.perRequest && e.user != Empty }

  function View(e: PendingEntry): ReserveEntry { ReserveEntry(e.user, e.task, Coin(Ufai, e.maxFee), e.expire) }

  function Kept(es: seq<PendingEntry>, now: nat): seq<PendingEntry> {
    if es == [] then [] else if Live(es[0], now) then [es[0]] + Kept(es[1..], now) else Kept(es[1..], now)
  }

  /** cleanExpiredPending: users without live entries disappear. */
  function Cleaned(fees: Fees, now: nat): Fees {
    map u | u in fees && Kept(fees[u], now) != [] :: Kept(fees[u], now)
  }

  function WantedOf(es: seq<PendingEntry>): seq<PendingEntry> {
    if es == [] then [] else if Wanted(es[0]) then [es[0]] + WantedOf(es[1..]) else WantedOf(es[1..])
  }

  function Views(es: seq<PendingEntry>): seq<ReserveEntry> {
    if es == [] then [] else [View(es[0])] + Views(es[1..])
  }

  function Keys(u: User, es: seq<PendingEntry>): seq<ReservationKey> {
    if es == [] then [] else [ReservationKey(u, es[0].task)] + Keys(u, es[1..])
  }

  /** The batch over the users in `order`. */
  function BatchOf(fees: Fees, order: seq<User>): (seq<ReserveEntry>, seq<ReservationKey>)
    requires forall u :: u in order ==> u in fees
  {
    if order == [] then ([], []) else
      var rest := BatchOf(fees, order[1..]);
      var wanted := WantedOf(fees[order[0]]);
      (Views(wanted) + rest.0, Keys(order[0], wanted) + rest.1)
  }

  ghost predicate Orders(order: seq<User>, fees: Fees) {
    && (forall u :: u in order <==> u in fees)
    && (forall i, j :: 0 <= i < j < |order| ==> order[i] != order[j])
  }

  /** Set the flag on the first entry of the task. */
  function Mark(es: seq<PendingEntry>, t: TaskId): (r: seq<PendingEntry>)
    ensures |r| == |es|
  {
    if es == [] then []
    else if es[0].task == t then [es[0].(reserved := true)] + es[1..]
    else [es[0]] + Mark(es[1..], t)
  }

  function Committed(fees: Fees, keys: seq<ReservationKey>): Fees
    decreases |keys|
  {
    if keys == [] then fees else
      var k := keys[0];
      Committed(if k.user in fees then fees[k.user := Mark(fees[k.user], k.task)] else fees, keys[1..])
  }

  function Without(es: seq<PendingEntry>, t: TaskId): seq<PendingEntry> {
    if es == [] then [] else if es[0].task == t then es[1..] else [es[0]] + Without(es[1..], t)
  }

  function Removed(fees: Fees, u: User, t: TaskId): Fees {
    if u !in fees then fees
    else if Without(fees[u], t) == [] then fees - {u}
    else fees[u := Without(fees[u], t)]
  }

  // ---------- The batch holds what it should ----------

  lemma {:induction false} InWanted(es: seq<PendingEntry>, e: PendingEntry)
    ensures e in WantedOf(es) <==> e in es && Wanted(e)
  {
    if es != [] {
      InWanted(es[1..], e);
      assert es == [es[0]] + es[1..];
    }
  }

  lemma {:induction false} InViews(u: User, es: seq<PendingEntry>, e: PendingEntry)
    requires e in es
    ensures View(e) in Views(es) && ReservationKey(u, e.task) in Keys(u, es)
  {
    if e != es[0] {
      assert es == [es[0]] + es[1..];
      InViews(u, es[1..], e);
    }
  }

  lemma {:induction false} KeysAre(u: User, es: seq<PendingEntry>, k: ReservationKey)
    requires k in Keys(u, es)
    ensures k.user == u && exists e :: e in es && e.task == k.task
  {
    if k != ReservationKey(u, es[0].task) {
      KeysAre(u, es[1..], k);
      var e :| e in es[1..] && e.task == k.task;
      assert e in es;
    }
  }

  /** Every wanted entry is offered, under its own key. */
  lemma {:induction false} WantedIsOffered(fees: Fees, order: seq<User>, u: User, e: PendingEntry)
    requires (forall v :: v in order ==> v in fees) && u in order && e in fees[u] && Wanted(e)
    ensures View(e) in BatchOf(fees, order).0 && ReservationKey(u, e.task) in BatchOf(fees, order).1
    decreases |order|
  {
    if order[0] == u {
      InWanted(fees[u], e);
      InViews(u, WantedOf(fees[u]), e);
    } else {
      WantedIsOffered(fees, order[1..], u, e);
    }
  }

  /** Nothing else is. */
  lemma {:induction false} OfferedIsWanted(fees: Fees, order: seq<User>, k: ReservationKey)
    requires (forall v :: v in order ==> v in fees) && k in BatchOf(fees, order).1
    ensures k.user in fees && exists e :: e in fees[k.user] && Wanted(e) && e.task == k.task
    decreases |order|
  {
    var wanted := WantedOf(fees[order[0]]);
    if k in Keys(order[0], wanted) {
      KeysAre(order[0], wanted, k);
      var e :| e in wanted && e.task == k.task;
      InWanted(fees[order[0]], e);
    } else {
      OfferedIsWanted(fees, order[1..], k);
    }
  }

  lemma {:induction false} OneKeyPerView(fees: Fees, order: seq<User>)
    requires forall v :: v in order ==> v in fees
    ensures |BatchOf(fees, order).0| == |BatchOf(fees, order).1|
  {
    if order != [] {
      OneKeyPerView(fees, order[1..]);
      SameLength(order[0], WantedOf(fees[order[0]]));
    }
  }

  lemma {:induction false} SameLength(u: User, es: seq<PendingEntry>)
    ensures |Views(es)| == |Keys(u, es)| == |es|
  {
    if es != [] { SameLength(u, es[1..]); }
  }

  // ---------- What a commit marks ----------

  lemma {:induction false} MarkedAt(es: seq<PendingEntry>, t: TaskId, i: nat)
    requires i < |es|
    ensures Mark(es, t)[i] == es[i] || (es[i].task == t && Mark(es, t)[i] == es[i].(reserved := true))
    ensures es[i].task == t && (forall j :: 0 <= j < i ==> es[j].task != t) ==> Mark(es, t)[i].reserved
  {
    if es[0].task != t && i > 0 {
      MarkedAt(es[1..], t, i - 1);
      assert forall j :: 0 <= j < i - 1 ==> es[1..][j] == es[j + 1];
    }
  }

  /** A commit changes flags only, from false to true, and only for the given keys. */
  lemma {:induction false} CommitOnlyMarks(fees: Fees, keys: seq<ReservationKey>, u: User, i: nat)
    requires u in fees && i < |fees[u]|
    ensures var after := Committed(fees, keys);
            && after.Keys == fees.Keys && |after[u]| == |fees[u]|
            && (after[u][i] == fees[u][i] ||
                (ReservationKey(u, fees[u][i].task) in keys && after[u][i] == fees[u][i].(reserved := true)))
    decreases |keys|
  {
    if keys != [] {
      var k := keys[0];
      var next := if k.user in fees then fees[k.user := Mark(fees[k.user], k.task)] else fees;
      if k.user == u { MarkedAt(fees[u], k.task, i); }
      CommitOnlyMarks(next, keys[1..], u, i);
      assert keys == [k] + keys[1..];
    }
  }

  lemma FirstStaysFirst(es: seq<PendingEntry>, t: TaskId, i: nat)
    requires i < |es| && forall j :: 0 <= j < i ==> es[j].task != es[i].task
    ensures Mark(es, t)[i].task == es[i].task && forall j :: 0 <= j < i ==> Mark(es, t)[j].task != Mark(es, t)[i].task
  {
    forall j | 0 <= j <= i ensures Mark(es, t)[j].task == es[j].task { MarkedAt(es, t, j); }
  }

  /** The first entry of a committed task ends up reserved. */
  lemma {:induction false} CommitMarksFirst(fees: Fees, keys: seq<ReservationKey>, u: User, i: nat)
    requires u in fees && i < |fees[u]| && forall j :: 0 <= j < i ==> fees[u][j].task != fees[u][i].task
    requires fees[u][i].reserved || ReservationKey(u, fees[u][i].task) in keys
    ensures u in Committed(fees, keys) && i < |Committed(fees, keys)[u]| && Committed(fees, keys)[u][i].reserved
    decreases |keys|
  {
    if keys != [] {
      var k := keys[0];
      var next := if k.user in fees then fees[k.user := Mark(fees[k.user], k.task)] else fees;
      assert keys == [k] + keys[1..];
      if k.user == u {
        MarkedAt(fees[u], k.task, i);
        FirstStaysFirst(fees[u], k.task, i);
      }
      CommitMarksFirst(next, keys[1..], u, i);
    }
  }

  lemma {:induction false} MarkSkipsLater(es: seq<PendingEntry>, t: TaskId, j: nat, i: nat)
    requires j < i < |es| && es[j].task == es[i].task
    ensures Mark(es, t)[i] == es[i] && Mark(es, t)[j].task == es[j].task
  {
    MarkedAt(es, t, j);
    if es[0].task != t && j > 0 { MarkSkipsLater(es[1..], t, j - 1, i - 1); }
    else if es[0].task != t { MarkSkipsOther(es[1..], t, i - 1); }
  }

  lemma {:induction false} MarkSkipsOther(es: seq<PendingEntry>, t: TaskId, i: nat)
    requires i < |es| && es[i].task != t
    ensures Mark(es, t)[i] == es[i]
  {
    if es[0].task != t && i > 0 { MarkSkipsOther(es[1..], t, i - 1); }
  }

  /** A second entry for the same task is never marked, so it is offered again and again. */
  lemma {:induction false} CommitSkipsLater(fees: Fees, keys: seq<ReservationKey>, u: User, j: nat, i: nat)
    requires u in fees && j < i < |fees[u]| && fees[u][j].task == fees[u][i].task
    ensures u in Committed(fees, keys) && i < |Committed(fees, keys)[u]| && Committed(fees, keys)[u][i] == fees[u][i]
    decreases |keys|
  {
    if keys != [] {
      var k := keys[0];
      var next := if k.user in fees then fees[k.user := Mark(fees[k.user], k.task)] else fees;
      if k.user == u { MarkSkipsLater(fees[u], k.task, j, i); }
      CommitSkipsLater(next, keys[1..], u, j, i);
    }
  }

  /** So a committed batch settles all it offered exactly when each user's tasks are distinct: entry i
      is reserved afterwards if and only if it already was or is the first of its task. */
  lemma CommitExact(fees: Fees, keys: seq<ReservationKey>, u: User, i: nat)
    requires u in fees && i < |fees[u]| && ReservationKey(u, fees[u][i].task) in keys
    ensures u in Committed(fees, keys) && i < |Committed(fees, keys)[u]|
    ensures Committed(fees, keys)[u][i].reserved <==>
              fees[u][i].reserved || forall j :: 0 <= j < i ==> fees[u][j].task != fees[u][i].task
  {
    CommitOnlyMarks(fees, keys, u, i);
    if forall j :: 0 <= j < i ==> fees[u][j].task != fees[u][i].task {
      CommitMarksFirst(fees, keys, u, i);
    } else {
      var j :| 0 <= j < i && fees[u][j].task == fees[u][i].task;
      CommitSkipsLater(fees, keys, u, j, i);
    }
  }

  // ---------- Runs ----------

  datatype Event =
    | Accepted(user: User, entry: PendingEntry) // a worker accepted the task
    | Released(user: User, task: TaskId)        // its receipt was seen
    | Checked(now: nat)                         // a balance check dropped what has expired
    | Build(now: nat, order: seq<User>)         // a reservation batch is built and sent
    | Commit(confirmed: bool)                   // its broadcast succeeded or failed

  /** Pending fees, the keys of the batch being sent, and those of all confirmed batches. */
  datatype Book = Book(fees: Fees, inFlight: Option<seq<ReservationKey>>, confirmed: set<ReservationKey>)

  ghost predicate Possible(b: Book, ev: Event) {
    match ev
    case Accepted(_, e) => !e.reserved
    case Released(_, _) => true
    case Checked(_) => true
    case Build(now, order) => b.inFlight.None? && Orders(order, Cleaned(b.fees, now))
    case Commit(_) => b.inFlight.Some?
  }

  function Added(fees: Fees, u: User, e: PendingEntry): Fees {
    fees[u := (if u in fees then fees[u] else []) + [e]]
  }

  ghost function Next(b: Book, ev: Event): Book
    requires Possible(b, ev)
  {
    match ev
    case Accepted(u, e) => b.(fees := Added(b.fees, u, e))
    case Released(u, t) => b.(fees := Removed(b.fees, u, t))
    case Checked(now) => b.(fees := Cleaned(b.fees, now))
    case Build(now, order) =>
      b.(fees := Cleaned(b.fees, now), inFlight := Some(BatchOf(Cleaned(b.fees, now), order).1))
    case Commit(confirmed) =>
      var keys := b.inFlight.value;
      if confirmed then Book(Committed(b.fees, keys), None, b.confirmed + set k | k in keys)
      else b.(inFlight := None)
  }

  /** Reserved means confirmed. */
  ghost predicate Honest(b: Book) {
    forall u: User, e: PendingEntry :: u in b.fees && e in b.fees[u] && e.reserved ==>
      ReservationKey(u, e.task) in b.confirmed
  }

  lemma {:induction false} InKept(es: seq<PendingEntry>, now: nat, e: PendingEntry)
    ensures e in Kept(es, now) <==> e in es && Live(e, now)
  {
    if es != [] {
      InKept(es[1..], now, e);
      assert es == [es[0]] + es[1..];
    }
  }

  lemma {:induction false} InWithout(es: seq<PendingEntry>, t: TaskId, e: PendingEntry)
    ensures e in Without(es, t) ==> e in es
    ensures e in es && e.task != t ==> e in Without(es, t)
  {
    if es != [] {
      InWithout(es[1..], t, e);
      assert es == [es[0]] + es[1..];
    }
  }

  lemma CleanedStaysHonest(b: Book, now: nat)
    requires Honest(b)
    ensures Honest(b.(fees := Cleaned(b.fees, now)))
  {
    forall u: User, e: PendingEntry | u in Cleaned(b.fees, now) && e in Cleaned(b.fees, now)[u]
      ensures u in b.fees && e in b.fees[u]
    {
      InKept(b.fees[u], now, e);
    }
  }

  lemma CommitStaysHonest(b: Book, keys: seq<ReservationKey>)
    requires Honest(b)
    ensures Honest(Book(Committed(b.fees, keys), None, b.confirmed + set k | k in keys))
  {
    var after := Committed(b.fees, keys);
    CommitKeepsUsers(b.fees, keys);
    forall u: User, e: PendingEntry | u in after && e in after[u] && e.reserved
      ensures ReservationKey(u, e.task) in b.confirmed + set k | k in keys
    {
      var i :| 0 <= i < |after[u]| && after[u][i] == e;
      CommitOnlyMarks(b.fees, keys, u, i);
      assert b.fees[u][i] in b.fees[u];
    }
  }

  lemma {:induction false} CommitKeepsUsers(fees: Fees, keys: seq<ReservationKey>)
    ensures Committed(fees, keys).Keys == fees.Keys
    ensures forall u :: u in fees ==> u in Committed(fees, keys) && |Committed(fees, keys)[u]| == |fees[u]|
    decreases |keys|
  {
    if keys != [] {
      var k := keys[0];
      CommitKeepsUsers(if k.user in fees then fees[k.user := Mark(fees[k.user], k.task)] else fees, keys[1..]);
    }
  }

  /** No event marks an entry without a confirmed batch. */
  lemma EventsStayHonest(b: Book, ev: Event)
    requires Possible(b, ev) && Honest(b)
    ensures Honest(Next(b, ev))
  {
    match ev
    case Accepted(u, e) =>
    case Released(u, t) =>
      if u in b.fees { forall e { InWithout(b.fees[u], t, e); } }
    case Checked(now) => CleanedStaysHonest(b, now);
    case Build(now, order) => CleanedStaysHonest(b, now);
    case Commit(confirmed) => if confirmed { CommitStaysHonest(b, b.inFlight.value); }
  }

  /** The event neither releases the entry nor finds it expired. */
  ghost predicate Spares(ev: Event, u: User, e: PendingEntry) {
    && ev != Released(u, e.task)
    && (ev.Build? || ev.Checked? ==> e.expire == 0 || ev.now <= e.expire)
  }

  ghost predicate Holds(b: Book, u: User, e: PendingEntry) { u in b.fees && e in b.fees[u] }

  /** Building a batch or checking a balance drops exactly what has expired. */
  lemma ExpiredIsDropped(b: Book, ev: Event, u: User, e: PendingEntry)
    requires Possible(b, ev) && (ev.Build? || ev.Checked?)
    ensures Holds(Next(b, ev), u, e) <==> Holds(b, u, e) && (e.expire == 0 || ev.now <= e.expire)
  {
    if u in b.fees { InKept(b.fees[u], ev.now, e); }
  }

  /** The batch that is built offers the entry, under its key. */
  ghost predicate Offers(b: Book, ev: Event, u: User, e: PendingEntry)
    requires ev.Build? && Possible(b, ev)
  {
    var batch := BatchOf(Cleaned(b.fees, ev.now), ev.order);
    View(e) in batch.0 && ReservationKey(u, e.task) in batch.1
  }

  /** The event marks this entry: a batch with its key is confirmed, and it is the first of its task. */
  ghost predicate Marks(b: Book, ev: Event, u: User, e: PendingEntry)
    requires Possible(b, ev)
  {
    && ev == Commit(true) && ReservationKey(u, e.task) in b.inFlight.value
    && u in b.fees && u in Next(b, ev).fees && |Next(b, ev).fees[u]| == |b.fees[u]|
    && exists i :: 0 <= i < |b.fees[u]| && MarkedThere(b.fees[u], Next(b, ev).fees[u], i, e)
  }

  ghost predicate MarkedThere(es: seq<PendingEntry>, after: seq<PendingEntry>, i: nat, e: PendingEntry)
    requires i < |es| == |after|
  {
    es[i] == e && after[i] == e.(reserved := true) && forall j :: 0 <= j < i ==> es[j].task != e.task
  }

  lemma CommitSpares(b: Book, u: User, e: PendingEntry)
    requires b.inFlight.Some? && Holds(b, u, e)
    ensures Holds(Next(b, Commit(true)), u, e) || Marks(b, Commit(true), u, e)
  {
    var i :| 0 <= i < |b.fees[u]| && b.fees[u][i] == e;
    var next := Next(b, Commit(true));
    CommitOnlyMarks(b.fees, b.inFlight.value, u, i);
    if next.fees[u][i] != e {
      forall j | 0 <= j < i ensures b.fees[u][j].task != e.task {
        if b.fees[u][j].task == e.task { CommitSkipsLater(b.fees, b.inFlight.value, u, j, i); }
      }
      assert MarkedThere(b.fees[u], next.fees[u], i, e);
    }
  }

  /** One event leaves the entry where it is, unless it marks it. */
  lemma EventSpares(b: Book, ev: Event, u: User, e: PendingEntry)
    requires Possible(b, ev) && Holds(b, u, e) && Spares(ev, u, e)
    ensures Holds(Next(b, ev), u, e) || Marks(b, ev, u, e)
    ensures Wanted(e) && ev.Build? ==> Offers(b, ev, u, e)
  {
    match ev
    case Accepted(_, _) =>
    case Released(v, t) => if v == u { InWithout(b.fees[u], t, e); }
    case Checked(now) => InKept(b.fees[u], now, e);
    case Build(now, order) =>
      InKept(b.fees[u], now, e);
      if Wanted(e) { WantedIsOffered(Cleaned(b.fees, now), order, u, e); }
    case Commit(confirmed) => if confirmed { CommitSpares(b, u, e); }
  }

  ghost predicate PossibleAll(b: Book, evs: seq<Event>)
    decreases |evs|
  {
    evs == [] || (Possible(b, evs[0]) && PossibleAll(Next(b, evs[0]), evs[1..]))
  }

  ghost function NextAll(b: Book, evs: seq<Event>): Book
    requires PossibleAll(b, evs)
    decreases |evs|
  {
    if evs == [] then b else NextAll(Next(b, evs[0]), evs[1..])
  }

  lemma {:induction false} RunsStayHonest(b: Book, evs: seq<Event>)
    requires PossibleAll(b, evs) && Honest(b)
    ensures Honest(NextAll(b, evs))
    decreases |evs|
  {
    if evs != [] {
      EventsStayHonest(b, evs[0]);
      RunsStayHonest(Next(b, evs[0]), evs[1..]);
    }
  }

  /** As long as the entry is there it is offered whenever a batch is built, and only marking it takes it away. */
  ghost predicate OfferedUntilMarked(b: Book, evs: seq<Event>, u: User, e: PendingEntry)
    requires PossibleAll(b, evs)
    decreases |evs|
  {
    evs != [] && Holds(b, u, e) ==>
      && (evs[0].Build? ==> Offers(b, evs[0], u, e))
      && (Holds(Next(b, evs[0]), u, e) || Marks(b, evs[0], u, e))
      && OfferedUntilMarked(Next(b, evs[0]), evs[1..], u, e)
  }

  /** At-least-once, over every run with accepts and releases at any point, also during a broadcast: an entry
      that wants a reservation is offered in every batch built until it expires, is released or is itself
      marked, even when an earlier entry of its task was confirmed. */
  lemma {:induction false} RetriedUntilDone(b: Book, evs: seq<Event>, u: User, e: PendingEntry)
    requires PossibleAll(b, evs) && !e.reserved && e.perRequest && e.user != Empty
    requires forall i :: 0 <= i < |evs| ==> Spares(evs[i], u, e)
    ensures OfferedUntilMarked(b, evs, u, e)
    decreases |evs|
  {
    if evs != [] && Holds(b, u, e) {
      EventSpares(b, evs[0], u, e);
      RetriedUntilDone(Next(b, evs[0]), evs[1..], u, e);
    }
  }

  // ---------- The Leader ----------

  lemma {:induction false} KeptSnoc(es: seq<PendingEntry>, e: PendingEntry, now: nat)
    ensures Kept(es + [e], now) == Kept(es, now) + if Live(e, now) then [e] else []
  {
    if es == [] {
      assert es + [e] == [e] && [e][1..] == [];
    } else {
      assert (es + [e])[1..] == es[1..] + [e];
      KeptSnoc(es[1..], e, now);
    }
  }

  lemma {:induction false} WantedSnoc(u: User, es: seq<PendingEntry>, e: PendingEntry)
    ensures Views(WantedOf(es + [e])) == Views(WantedOf(es)) + if Wanted(e) then [View(e)] else []
    ensures Keys(u, WantedOf(es + [e])) == Keys(u, WantedOf(es)) + if Wanted(e) then [ReservationKey(u, e.task)] else []
  {
    if es == [] {
      assert es + [e] == [e] && [e][1..] == [];
    } else {
      assert (es + [e])[1..] == es[1..] + [e];
      WantedSnoc(u, es[1..], e);
      var rest := WantedOf(es[1..] + [e]);
      if Wanted(es[0]) {
        assert WantedOf(es + [e]) == [es[0]] + rest && ([es[0]] + rest)[1..] == rest;
        assert WantedOf(es) == [es[0]] + WantedOf(es[1..]) && ([es[0]] + WantedOf(es[1..]))[1..] == WantedOf(es[1..]);
      }
    }
  }

  lemma Regroup<T>(a: seq<T>, b: seq<T>, c: seq<T>)
    ensures a + (b + c) == a + b + c
  {
  }

  lemma {:induction false} BatchSnoc(fees: Fees, order: seq<User>, u: User)
    requires (forall v :: v in order ==> v in fees) && u in fees
    ensures var b, more := BatchOf(fees, order), BatchOf(fees, order + [u]);
            more.0 == b.0 + Views(WantedOf(fees[u])) && more.1 == b.1 + Keys(u, WantedOf(fees[u]))
  {
    if order == [] {
      assert order + [u] == [u] && [u][1..] == [];
    } else {
      var first, rest := order[0], order[1..];
      var wanted, last := WantedOf(fees[first]), WantedOf(fees[u]);
      assert (order + [u])[1..] == rest + [u] && (order + [u])[0] == first;
      BatchSnoc(fees, rest, u);
      Regroup(Views(wanted), BatchOf(fees, rest).0, Views(last));
      Regroup(Keys(first, wanted), BatchOf(fees, rest).1, Keys(u, last));
    }
  }

  /** The live entries of one user, filtered into a new slice. */
  method KeepLive(es: seq<PendingEntry>, now: nat) returns (kept: seq<PendingEntry>)
    ensures kept == Kept(es, now)
  {
    kept := [];
    for i := 0 to |es|
      invariant kept == Kept(es[..i], now)
    {
      assert es[..i + 1] == es[..i] + [es[i]];
      KeptSnoc(es[..i], es[i], now);
      if es[i].expire == 0 || now <= es[i].expire { kept := kept + [es[i]]; }
    }
    assert es[..|es|] == es;
  }

  /** One user's part of a reservation batch. */
  method Offer(u: User, es: seq<PendingEntry>) returns (entries: seq<ReserveEntry>, keys: seq<ReservationKey>)
    ensures entries == Views(WantedOf(es)) && keys == Keys(u, WantedOf(es))
  {
    entries, keys := [], [];
    for i := 0 to |es|
      invariant entries == Views(WantedOf(es[..i])) && keys == Keys(u, WantedOf(es[..i]))
    {
      assert es[..i + 1] == es[..i] + [es[i]];
      WantedSnoc(u, es[..i], es[i]);
      if es[i].reserved || !es[i].perRequest { continue; }
      if es[i].user == Empty { continue; }
      entries := entries + [View(es[i])];
      keys := keys + [ReservationKey(u, es[i].task)];
    }
    assert es[..|es|] == es;
  }

  /** The users visited so far, each once. */
  ghost predicate Visited(order: seq<User>, users: set<User>) {
    && (forall u :: u in order <==> u in users)
    && (forall i, j :: 0 <= i < j < |order| ==> order[i] != order[j])
  }

  /** All users' parts, in whatever order the map is walked. */
  method OfferAll(fees: Fees) returns (entries: seq<ReserveEntry>, keys: seq<ReservationKey>, ghost order: seq<User>)
    ensures Orders(order, fees) && (entries, keys) == BatchOf(fees, order)
  {
    entries, keys, order := [], [], [];
    var unseen := fees.Keys;
    while unseen != {}
      invariant unseen <= fees.Keys && Visited(order, fees.Keys - unseen)
      invariant (entries, keys) == BatchOf(fees, order)
      decreases |unseen|
    {
      var u :| u in unseen;
      var views, ks := Offer(u, fees[u]);
      BatchSnoc(fees, order, u);
      assert Visited(order + [u], fees.Keys - (unseen - {u}));
      entries, keys, order := entries + views, keys + ks, order + [u];
      unseen := unseen - {u};
    }
  }

  lemma {:induction false} MarkAfter(es: seq<PendingEntry>, t: TaskId, i: nat)
    requires i < |es| && es[i].task == t && forall j :: 0 <= j < i ==> es[j].task != t
    ensures Mark(es, t) == es[i := es[i].(reserved := true)]
  {
    if i > 0 {
      assert forall j :: 0 <= j < i - 1 ==> es[1..][j] == es[j + 1];
      MarkAfter(es[1..], t, i - 1);
    }
  }

  lemma {:induction false} MarkNothing(es: seq<PendingEntry>, t: TaskId)
    requires forall j :: 0 <= j < |es| ==> es[j].task != t
    ensures Mark(es, t) == es
  {
    if es != [] { MarkNothing(es[1..], t); }
  }

  lemma {:induction false} WithoutAt(es: seq<PendingEntry>, t: TaskId, i: nat)
    requires i < |es| && es[i].task == t && forall j :: 0 <= j < i ==> es[j].task != t
    ensures Without(es, t) == es[..i] + es[i + 1..]
  {
    if i > 0 {
      assert forall j :: 0 <= j < i - 1 ==> es[1..][j] == es[j + 1];
      WithoutAt(es[1..], t, i - 1);
    }
  }

  lemma {:induction false} WithoutNothing(es: seq<PendingEntry>, t: TaskId)
    requires forall j :: 0 <= j < |es| ==> es[j].task != t
    ensures Without(es, t) == es
  {
    if es != [] { WithoutNothing(es[1..], t); }
  }

  class Leader {
    var pendingFees: Fees

    constructor ()
      ensures pendingFees == map[]
    {
      pendingFees := map[];
    }

    /** No user is left with an empty list. */
    ghost predicate Valid()
      reads this
    {
      forall u :: u in pendingFees ==> pendingFees[u] != []
    }

    method AddPending(u: User, e: PendingEntry)
      requires Valid()
      modifies this
      ensures Valid() && pendingFees == Added(old(pendingFees), u, e)
    {
      var es := if u in pendingFees then pendingFees[u] else [];
      pendingFees := pendingFees[u := es + [e]];
    }

    method RemovePendingEntry(u: User, t: TaskId)
      requires Valid()
      modifies this
      ensures Valid() && pendingFees == Removed(old(pendingFees), u, t)
    {
      if u !in pendingFees { return; }
      var es := pendingFees[u];
      for i := 0 to |es|
        invariant forall j :: 0 <= j < i ==> es[j].task != t
      {
        if es[i].task == t {
          WithoutAt(es, t, i);
          pendingFees := pendingFees[u := es[..i] + es[i + 1..]];
          if |pendingFees[u]| == 0 { pendingFees := pendingFees - {u}; }
          return;
        }
      }
      WithoutNothing(es, t);
      assert pendingFees == pendingFees[u := es];
    }

    method CleanExpiredPending(now: nat)
      modifies this
      ensures Valid() && pendingFees == Cleaned(old(pendingFees), now)
    {
      ghost var was := pendingFees;
      var unseen := pendingFees.Keys;
      while unseen != {}
        invariant unseen <= was.Keys
        invariant forall u :: u in pendingFees <==> u in was && (u in unseen || Kept(was[u], now) != [])
        invariant forall u :: u in pendingFees ==> pendingFees[u] == if u in unseen then was[u] else Kept(was[u], now)
        decreases |unseen|
      {
        var u :| u in unseen;
        unseen := unseen - {u};
        var kept := KeepLive(pendingFees[u], now);
        if |kept| == 0 {
          pendingFees := pendingFees - {u};
        } else {
          pendingFees := pendingFees[u := kept];
        }
      }
    }

    /** Everything wanted and live, with the keys to commit it. */
    method BuildReserveEntries(now: nat)
      returns (entries: seq<ReserveEntry>, keys: seq<ReservationKey>, ghost order: seq<User>)
      modifies this
      ensures Valid() && pendingFees == Cleaned(old(pendingFees), now)
      ensures Orders(order, pendingFees) && (entries, keys) == BatchOf(pendingFees, order)
    {
      CleanExpiredPending(now);
      entries, keys, order := OfferAll(pendingFees);
    }

    method CommitReservations(keys: seq<ReservationKey>)
      requires Valid()
      modifies this
      ensures Valid() && pendingFees == Committed(old(pendingFees), keys)
    {
      for i := 0 to |keys|
        invariant Valid() && Committed(old(pendingFees), keys) == Committed(pendingFees, keys[i..])
      {
        assert keys[i..][0] == keys[i] && keys[i..][1..] == keys[i + 1..];
        MarkReserved(keys[i]);
      }
    }

    method MarkReserved(k: ReservationKey)
      requires Valid()
      modifies this
      ensures Valid()
      ensures pendingFees == Committed(old(pendingFees), [k])
    {
      if k.user !in pendingFees { return; }
      var es := pendingFees[k.user];
      for i := 0 to |es|
        invariant forall j :: 0 <= j < i ==> es[j].task != k.task
      {
        if es[i].task == k.task {
          MarkAfter(es, k.task, i);
          pendingFees := pendingFees[k.user := es[i := es[i].(reserved := true)]];
          return;
        }
      }
      MarkNothing(es, k.task);
      assert pendingFees == pendingFees[k.user := es];
    }
  }

  /** What others do with the Leader while it is not locked. */
  predicate FromOthers(ev: Event) { (ev.Accepted? && !ev.entry.reserved) || ev.Released? || ev.Checked? }

  function FeesNext(fees: Fees, ev: Event): Fees {
    match ev
    case Accepted(u, e) => Added(fees, u, e)
    case Released(u, t) => Removed(fees, u, t)
    case Checked(now) => Cleaned(fees, now)
    case _ => fees
  }

  function FeesAfter(fees: Fees, evs: seq<Event>): Fees
    decreases |evs|
  {
    if evs == [] then fees else FeesAfter(FeesNext(fees, evs[0]), evs[1..])
  }

  lemma {:induction false} OthersChangeFees(b: Book, evs: seq<Event>)
    requires forall i :: 0 <= i < |evs| ==> FromOthers(evs[i])
    ensures PossibleAll(b, evs) && NextAll(b, evs) == b.(fees := FeesAfter(b.fees, evs))
    decreases |evs|
  {
    if evs != [] { OthersChangeFees(Next(b, evs[0]), evs[1..]); }
  }

  method Meanwhile(l: Leader, evs: seq<Event>)
    requires l.Valid() && forall i :: 0 <= i < |evs| ==> FromOthers(evs[i])
    modifies l
    ensures l.Valid() && l.pendingFees == FeesAfter(old(l.pendingFees), evs)
  {
    for i := 0 to |evs|
      invariant l.Valid() && FeesAfter(l.pendingFees, evs[i..]) == FeesAfter(old(l.pendingFees), evs)
    {
      assert evs[i..][0] == evs[i] && evs[i..][1..] == evs[i + 1..];
      match evs[i]
      case Accepted(u, e) => l.AddPending(u, e);
      case Released(u, t) => l.RemovePendingEntry(u, t);
      case Checked(now) => l.CleanExpiredPending(now);
    }
  }

  lemma {:induction false} NextAllAppend(b: Book, x: seq<Event>, y: seq<Event>)
    requires PossibleAll(b, x) && PossibleAll(NextAll(b, x), y)
    ensures PossibleAll(b, x + y) && NextAll(b, x + y) == NextAll(NextAll(b, x), y)
    decreases |x|
  {
    if x == [] {
      assert x + y == y;
    } else {
      assert (x + y)[1..] == x[1..] + y;
      NextAllAppend(Next(b, x[0]), x[1..], y);
    }
  }

  /** Building, whatever others do, and committing, as a run. */
  lemma TickIsRun(b: Book, now: nat, order: seq<User>, between: seq<Event>, ok: bool)
    requires b.inFlight.None? && Orders(order, Cleaned(b.fees, now))
    requires forall i :: 0 <= i < |between| ==> FromOthers(between[i])
    ensures var evs := [Build(now, order)] + between + [Commit(ok)];
            var fees := FeesAfter(Cleaned(b.fees, now), between);
            && PossibleAll(b, evs)
            && NextAll(b, evs).fees == if ok then Committed(fees, BatchOf(Cleaned(b.fees, now), order).1) else fees
  {
    var built := Next(b, Build(now, order));
    OneEvent(b, Build(now, order));
    OthersChangeFees(built, between);
    NextAllAppend(b, [Build(now, order)], between);
    var before := built.(fees := FeesAfter(built.fees, between));
    OneEvent(before, Commit(ok));
    NextAllAppend(b, [Build(now, order)] + between, [Commit(ok)]);
  }

  lemma OneEvent(b: Book, ev: Event)
    requires Possible(b, ev)
    ensures PossibleAll(b, [ev]) && NextAll(b, [ev]) == Next(b, ev)
  {
    assert [ev][1..] == [];
  }

  /** doBatchReserve for one Leader: build, broadcast while others go on, commit only on success. */
  method DoBatchReserve(l: Leader, now: nat, between: seq<Event>, ok: bool)
    returns (sent: seq<ReserveEntry>, ghost order: seq<User>)
    requires forall i :: 0 <= i < |between| ==> FromOthers(between[i])
    modifies l
    ensures l.Valid() && Orders(order, Cleaned(old(l.pendingFees), now))
    ensures forall confirmed :: var b := Book(old(l.pendingFees), None, confirmed);
            var evs := [Build(now, order)] + between + [Commit(ok)];
            PossibleAll(b, evs) && NextAll(b, evs).fees == l.pendingFees
    ensures sent == if ok then BatchOf(Cleaned(old(l.pendingFees), now), order).0 else []
  {
    var entries, ks;
    entries, ks, order := l.BuildReserveEntries(now);
    sent := [];
    OneKeyPerView(l.pendingFees, order);
    ghost var evs := [Build(now, order)] + between + [Commit(ok)];
    ghost var fees := FeesAfter(l.pendingFees, between);
    ghost var after := if ok then Committed(fees, ks) else fees;
    forall confirmed
      ensures var b := Book(old(l.pendingFees), None, confirmed); PossibleAll(b, evs) && NextAll(b, evs).fees == after
    {
      TickIsRun(Book(old(l.pendingFees), None, confirmed), now, order, between, ok);
    }
    Meanwhile(l, between);
    if |entries| == 0 {
      assert Committed(l.pendingFees, []) == l.pendingFees && ks == [];
      return;
    }
    if !ok { return; }
    sent := entries;
    l.CommitReservations(ks);
  }
}
