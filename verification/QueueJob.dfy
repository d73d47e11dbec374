/** The weighted priority queue: one index queue per priority, one data queue per priority and weight.
    A data queue's index waits in its priority's index queue once for each entry the data queue may
    be served before the others of its priority get their turn. */
module QueueJob {
  import opened Common

  const MAX_NUM_PRIORITY: nat := 3
  const MAX_MAX_WEIGHT: nat := 3
  const MAX_SIZE: nat := 0xffff_ffff
  const WORD: nat := 0x1_0000_0000

  /** The state of a queue.  `total` is an unsigned word of 32 bits; it is compared with the greatest
      `size_t`, which is `wide` where it has 64 bits. */
  datatype Queue<T> = Queue(numPriority: nat, maxWeight: nat, wide: bool, signaled: bool,
                            index: seq<seq<nat>>, data: seq<seq<T>>, total: nat)

  function Min(a: nat, b: nat): nat {
    if a < b then a else b
  }

  /** Multiples, quotients and remainders by a weight limit the queue allows, written out case by case:
      see `Arithmetic`. */
  function Times(n: nat, maxWeight: nat): nat
    requires maxWeight <= MAX_MAX_WEIGHT
  {
    if maxWeight == 0 then 0 else if maxWeight == 1 then n else if maxWeight == 2 then 2 * n else 3 * n
  }

  /** The weight of data queue d. */
  function WeightOf(maxWeight: nat, d: nat): nat
    requires maxWeight <= MAX_MAX_WEIGHT
  {
    if maxWeight == 1 then 1 else if maxWeight == 2 then d % 2 + 1 else d % 3 + 1
  }

  /** The priority of data queue d, from 0. */
  function PriorityOf(maxWeight: nat, d: nat): nat
    requires maxWeight <= MAX_MAX_WEIGHT
  {
    if maxWeight == 1 then d else if maxWeight == 2 then d / 2 else d / 3
  }

  /** `Index` takes a priority or weight beyond the greatest one for the greatest. */
  function IndexOf(priority: nat): nat
    requires priority >= 1
  {
    Min(priority, MAX_NUM_PRIORITY) - 1
  }

  function ClassIndex(maxWeight: nat, priority: nat, weight: nat): nat
    requires priority >= 1 && weight >= 1 && maxWeight <= MAX_MAX_WEIGHT
  {
    Times(IndexOf(priority), maxWeight) + (Min(weight, MAX_MAX_WEIGHT) - 1)
  }

  lemma Arithmetic(maxWeight: nat, n: nat)
    requires maxWeight <= MAX_MAX_WEIGHT
    ensures Times(n, maxWeight) == n * maxWeight
    ensures maxWeight > 0 ==> WeightOf(maxWeight, n) == n % maxWeight + 1 && PriorityOf(maxWeight, n) == n / maxWeight
  {
    assert maxWeight == 0 || maxWeight == 1 || maxWeight == 2 || maxWeight == 3;
  }

  /** The classes are numbered without gaps or overlaps. */
  lemma ClassIndexFits(numPriority: nat, maxWeight: nat, priority: nat, weight: nat)
    requires 1 <= priority && IndexOf(priority) < numPriority && 1 <= weight <= maxWeight <= MAX_MAX_WEIGHT
    ensures var d := ClassIndex(maxWeight, priority, weight);
            d < Times(numPriority, maxWeight)
            && PriorityOf(maxWeight, d) == IndexOf(priority) == (if priority > 3 then 2 else priority - 1)
            && WeightOf(maxWeight, d) == weight
  {
  }

  lemma PriorityInRange(numPriority: nat, maxWeight: nat, d: nat)
    requires maxWeight <= MAX_MAX_WEIGHT && d < Times(numPriority, maxWeight)
    ensures PriorityOf(maxWeight, d) < numPriority
  {
    assert maxWeight == 1 || maxWeight == 2 || maxWeight == 3;
  }

  function Size<T>(data: seq<seq<T>>): nat {
    if data == [] then 0 else Size(data[..|data| - 1]) + |data[|data| - 1]|
  }

  predicate Sized<T>(q: Queue<T>) {
    && q.maxWeight <= MAX_MAX_WEIGHT && q.numPriority <= MAX_NUM_PRIORITY
    && |q.index| == q.numPriority && |q.data| == Times(q.numPriority, q.maxWeight)
  }

  /** Index queue p names only data queues of priority p. */
  predicate NamesOwn<T>(q: Queue<T>, p: nat)
    requires Sized(q) && p < q.numPriority
  {
    forall d <- q.index[p] :: d < |q.data| && PriorityOf(q.maxWeight, d) == p
  }

  /** It names each of them exactly as often as it has entries or as its weight allows, whichever is
      less. */
  predicate Counts<T>(q: Queue<T>, d: nat)
    requires Sized(q) && d < |q.data|
  {
    var p := PriorityOf(q.maxWeight, d);
    p < q.numPriority && multiset(q.index[p])[d] == Min(|q.data[d]|, WeightOf(q.maxWeight, d))
  }

  predicate Inv<T>(q: Queue<T>) {
    && Sized(q)
    && (forall p | 0 <= p < q.numPriority :: NamesOwn(q, p))
    && (forall d | 0 <= d < |q.data| :: Counts(q, d))
    && q.total == Wrap(Size(q.data))
    && (!q.wide && !q.signaled ==> Size(q.data) <= MAX_SIZE)
  }

  /** What a word of 32 bits holds of a number. */
  function Wrap(n: int): nat {
    n % WORD
  }

  function Empty<T>(numPriority: nat, maxWeight: nat, wide: bool, signaled: bool): Queue<T>
    requires maxWeight <= MAX_MAX_WEIGHT
  {
    Queue(numPriority, maxWeight, wide, signaled,
          seq(numPriority, i => []), seq(Times(numPriority, maxWeight), i => []), 0)
  }

  predicate Full<T>(q: Queue<T>) {
    !q.wide && q.total == MAX_SIZE
  }

  /** A class the queue was made for. */
  predicate HasClass<T>(q: Queue<T>, priority: nat, weight: nat) {
    1 <= priority && IndexOf(priority) < q.numPriority && 1 <= weight <= q.maxWeight
  }

  /** A priority and a weight that address lists the queue has, although perhaps not a class's own. */
  predicate Addresses<T>(q: Queue<T>, priority: nat, weight: nat)
    requires Sized(q)
  {
    1 <= priority && IndexOf(priority) < q.numPriority
    && 1 <= weight && ClassIndex(q.maxWeight, priority, weight) < |q.data|
  }

  lemma ClassIsAddressed<T>(q: Queue<T>, priority: nat, weight: nat)
    requires Sized(q) && HasClass(q, priority, weight)
    ensures Addresses(q, priority, weight)
  {
    ClassIndexFits(q.numPriority, q.maxWeight, priority, weight);
  }

  /** Append an entry; the index follows only while the data queue is shorter than its weight. */
  function Enqueued<T>(q: Queue<T>, entry: T, priority: nat, weight: nat): Queue<T>
    requires Sized(q) && Addresses(q, priority, weight)
  {
    var p := IndexOf(priority);
    var d := ClassIndex(q.maxWeight, priority, weight);
    q.(index := if |q.data[d]| < weight then q.index[p := q.index[p] + [d]] else q.index,
       data := q.data[d := q.data[d] + [entry]],
       total := Wrap(q.total + 1))
  }

  /** The first priority from p on whose index queue is not empty. */
  function Busy(index: seq<seq<nat>>, p: nat): (b: Option<nat>)
    requires p <= |index|
    ensures b.Some? ==> p <= b.value < |index| && index[b.value] != [] && forall k | p <= k < b.value :: index[k] == []
    ensures b.None? ==> forall k | p <= k < |index| :: index[k] == []
    decreases |index| - p
  {
    if p == |index| then None
    else if index[p] != [] then Some(p)
    else Busy(index, p + 1)
  }

  /** Serve data queue d, the head of index queue p; d waits again while it still has as many entries
      as its weight. */
  function ServeHead<T>(q: Queue<T>, p: nat): Queue<T>
    requires Sized(q) && p < q.numPriority && q.index[p] != []
    requires q.index[p][0] < |q.data| && q.data[q.index[p][0]] != []
  {
    var d := q.index[p][0];
    var rest := q.data[d][1..];
    q.(index := q.index[p := if |rest| >= WeightOf(q.maxWeight, d) then q.index[p][1..] + [d] else q.index[p][1..]],
       data := q.data[d := rest],
       total := Wrap(q.total - 1))
  }

  // ----- the counting invariant -----

  lemma {:induction false} SizeUpdate<T>(data: seq<seq<T>>, d: nat, x: seq<T>)
    requires d < |data|
    ensures Size(data[d := x]) == Size(data) - |data[d]| + |x|
  {
    var front := data[..|data| - 1];
    if d == |data| - 1 {
      assert data[d := x][..|data| - 1] == front;
    } else {
      SizeUpdate(front, d, x);
      assert data[d := x][..|data| - 1] == front[d := x];
    }
  }

  lemma {:induction false} SizeZero<T>(data: seq<seq<T>>)
    ensures Size(data) == 0 <==> forall d | 0 <= d < |data| :: data[d] == []
  {
    if data != [] {
      var front := data[..|data| - 1];
      SizeZero(front);
      assert forall d | 0 <= d < |front| :: front[d] == data[d];
    }
  }

  lemma InitInv<T>(numPriority: nat, maxWeight: nat, wide: bool, signaled: bool)
    requires numPriority <= MAX_NUM_PRIORITY && maxWeight <= MAX_MAX_WEIGHT
    ensures Inv(Empty<T>(numPriority, maxWeight, wide, signaled))
  {
    var q := Empty<T>(numPriority, maxWeight, wide, signaled);
    SizeZero(q.data);
    forall d | 0 <= d < |q.data| ensures Counts(q, d) {
      PriorityInRange(numPriority, maxWeight, d);
    }
  }

  lemma WrapNext(n: nat)
    ensures Wrap(Wrap(n) + 1) == Wrap(n + 1)
    ensures Wrap(Wrap(n) - 1) == Wrap(n - 1)
    ensures n < WORD ==> Wrap(n) == n
  {
  }

  lemma EnqueueTotal<T>(q: Queue<T>, entry: T, priority: nat, weight: nat)
    requires Inv(q) && Addresses(q, priority, weight) && (q.signaled || !Full(q))
    ensures var r := Enqueued(q, entry, priority, weight);
            r.total == Wrap(Size(r.data)) && (!r.wide && !r.signaled ==> Size(r.data) <= MAX_SIZE)
  {
    hide Wrap, Size;
    var d := ClassIndex(q.maxWeight, priority, weight);
    SizeUpdate(q.data, d, q.data[d] + [entry]);
    WrapNext(Size(q.data));
  }

  lemma EnqueueCounts<T>(q: Queue<T>, entry: T, priority: nat, weight: nat, k: nat)
    requires Inv(q) && Addresses(q, priority, weight) && HasClass(q, priority, weight) && k < |q.data|
    ensures Counts(Enqueued(q, entry, priority, weight), k)
  {
    hide Wrap, Size, NamesOwn;
    ClassIndexFits(q.numPriority, q.maxWeight, priority, weight);
    var d := ClassIndex(q.maxWeight, priority, weight);
    hide ClassIndex, Times, IndexOf, WeightOf, PriorityOf;
    assert Counts(q, k) && Counts(q, d);
  }

  lemma EnqueueNames<T>(q: Queue<T>, entry: T, priority: nat, weight: nat, p: nat)
    requires Inv(q) && Addresses(q, priority, weight) && HasClass(q, priority, weight) && p < q.numPriority
    ensures NamesOwn(Enqueued(q, entry, priority, weight), p)
  {
    hide Wrap, Size, Counts;
    ClassIndexFits(q.numPriority, q.maxWeight, priority, weight);
    hide ClassIndex, Times, IndexOf, WeightOf, PriorityOf;
    assert NamesOwn(q, p);
  }

  lemma EnqueueInv<T>(q: Queue<T>, entry: T, priority: nat, weight: nat)
    requires Inv(q) && Addresses(q, priority, weight) && HasClass(q, priority, weight) && (q.signaled || !Full(q))
    ensures Inv(Enqueued(q, entry, priority, weight))
  {
    hide Wrap, Size, Counts, NamesOwn;
    EnqueueTotal(q, entry, priority, weight);
    var r := Enqueued(q, entry, priority, weight);
    forall k | 0 <= k < |r.data| ensures Counts(r, k) {
      EnqueueCounts(q, entry, priority, weight, k);
    }
    forall k | 0 <= k < r.numPriority ensures NamesOwn(r, k) {
      EnqueueNames(q, entry, priority, weight, k);
    }
  }

  // ----- weights beyond the queue's own -----

  /** A data queue that already has its full share of the index needs no more of it. */
  lemma FilledEnqueueInv<T>(q: Queue<T>, entry: T, priority: nat, weight: nat)
    requires Inv(q) && Addresses(q, priority, weight) && (q.signaled || !Full(q))
    requires weight > q.maxWeight && |q.data[ClassIndex(q.maxWeight, priority, weight)]| >= weight
    ensures Inv(Enqueued(q, entry, priority, weight))
  {
    hide Wrap;
    var d := ClassIndex(q.maxWeight, priority, weight);
    EnqueueTotal(q, entry, priority, weight);
    var r := Enqueued(q, entry, priority, weight);
    WeightRange(q.maxWeight, d);
    forall k | 0 <= k < |r.data| ensures Counts(r, k) {
      assert Counts(q, k);
    }
    forall k | 0 <= k < r.numPriority ensures NamesOwn(r, k) {
      assert NamesOwn(q, k);
    }
  }

  lemma WeightRange(maxWeight: nat, d: nat)
    requires 1 <= maxWeight <= MAX_MAX_WEIGHT
    ensures 1 <= WeightOf(maxWeight, d) <= maxWeight
  {
  }

  /** An index queue that is given one name too many, or another priority's, breaks the invariant. */
  lemma OverIndexed<T>(q: Queue<T>, entry: T, priority: nat, weight: nat)
    requires Inv(q) && Addresses(q, priority, weight) && weight > q.maxWeight
    requires |q.data[ClassIndex(q.maxWeight, priority, weight)]| < weight
    requires q.maxWeight == MAX_MAX_WEIGHT ==> |q.data[ClassIndex(q.maxWeight, priority, weight)]| >= MAX_MAX_WEIGHT
    ensures !Inv(Enqueued(q, entry, priority, weight))
  {
    var p, d := IndexOf(priority), ClassIndex(q.maxWeight, priority, weight);
    var r := Enqueued(q, entry, priority, weight);
    assert r.index[p][|q.index[p]|] == d && d in r.index[p];
    if q.maxWeight == MAX_MAX_WEIGHT {
      ClassIndexFits(q.numPriority, q.maxWeight, priority, MAX_MAX_WEIGHT);
      assert Counts(q, d);
      assert !Counts(r, d);
    } else {
      assert PriorityOf(q.maxWeight, d) != p;
      assert !NamesOwn(r, p);
    }
  }

  /** Whether an entry of this priority and weight does no harm. */
  predicate Harmless<T>(q: Queue<T>, priority: nat, weight: nat)
    requires Sized(q) && Addresses(q, priority, weight)
  {
    var n := |q.data[ClassIndex(q.maxWeight, priority, weight)]|;
    weight <= q.maxWeight || n >= weight || (q.maxWeight == MAX_MAX_WEIGHT && n < MAX_MAX_WEIGHT)
  }

  /** An enqueue keeps the counting invariant if and only if its weight is one of the queue's, or its data
      queue is already as long as the weight, or the weight is beyond the greatest of all and the data
      queue still shorter than that. */
  lemma EnqueueInvUnlessHarmful<T>(q: Queue<T>, entry: T, priority: nat, weight: nat)
    requires Inv(q) && Addresses(q, priority, weight) && (q.signaled || !Full(q))
    ensures Inv(Enqueued(q, entry, priority, weight)) <==> Harmless(q, priority, weight)
  {
    hide Wrap, Counts, NamesOwn;
    if weight <= q.maxWeight {
      EnqueueInv(q, entry, priority, weight);
    } else if |q.data[ClassIndex(q.maxWeight, priority, weight)]| >= weight {
      FilledEnqueueInv(q, entry, priority, weight);
    } else if Harmless(q, priority, weight) {
      assert Enqueued(q, entry, priority, weight) == Enqueued(q, entry, priority, MAX_MAX_WEIGHT);
      EnqueueInv(q, entry, priority, MAX_MAX_WEIGHT);
    } else {
      OverIndexed(q, entry, priority, weight);
    }
  }

  /** A queue that holds an entry has one to serve, at the head of a data queue that is not empty. */
  lemma BacklogIsServable<T>(q: Queue<T>)
    requires Inv(q)
    ensures Busy(q.index, 0).Some? <==> Size(q.data) > 0
    ensures Size(q.data) > 0 ==>
              var p := Busy(q.index, 0).value;
              p < q.numPriority && q.index[p] != [] && q.index[p][0] < |q.data| && q.data[q.index[p][0]] != []
  {
    SizeZero(q.data);
    match Busy(q.index, 0)
    case Some(p) =>
      var d := q.index[p][0];
      assert NamesOwn(q, p) && d in q.index[p];
      assert Counts(q, d) && multiset(q.index[p])[d] > 0;
    case None =>
      forall d | 0 <= d < |q.data| ensures q.data[d] == [] {
        assert Counts(q, d);
        assert q.index[PriorityOf(q.maxWeight, d)] == [];
      }
  }

  lemma ServeTotal<T>(q: Queue<T>, p: nat)
    requires Inv(q) && p < q.numPriority && q.index[p] != []
    requires q.index[p][0] < |q.data| && q.data[q.index[p][0]] != []
    ensures var r := ServeHead(q, p);
            r.total == Wrap(Size(r.data)) && (!r.wide && !r.signaled ==> Size(r.data) <= MAX_SIZE)
  {
    hide Wrap, Size;
    var d := q.index[p][0];
    SizeUpdate(q.data, d, q.data[d][1..]);
    WrapNext(Size(q.data));
  }

  lemma ServeHeadInv<T>(q: Queue<T>, p: nat)
    requires Inv(q) && p < q.numPriority && q.index[p] != []
    requires q.index[p][0] < |q.data| && q.data[q.index[p][0]] != []
    ensures Inv(ServeHead(q, p))
  {
    var d := q.index[p][0];
    var r := ServeHead(q, p);
    assert NamesOwn(q, p) && d in q.index[p];
    assert q.index[p] == [d] + q.index[p][1..];
    ServeTotal(q, p);
    forall k | 0 <= k < |r.data| ensures Counts(r, k) {
      assert Counts(q, k);
    }
    forall k | 0 <= k < r.numPriority ensures NamesOwn(r, k) {
      assert NamesOwn(q, k);
      assert forall i <- r.index[k] :: i in q.index[k];
    }
  }

  /** What a dequeue returns: the data queue served and the entry. */
  datatype Served<T> = Served(d: nat, entry: T)

  /** Whether a call gets past the waiting loop and the check for a signal. */
  predicate PutGoes<T>(q: Queue<T>, blocking: bool) {
    if q.signaled then !blocking else !Full(q)
  }

  predicate TakeGoes<T>(q: Queue<T>, blocking: bool) {
    if q.signaled then !blocking else q.total != 0
  }

  /** A call that goes serves the head of the index queue of the highest backlogged priority. */
  function Dequeued<T>(q: Queue<T>, blocking: bool): (Queue<T>, Option<Served<T>>)
    requires Inv(q)
  {
    BacklogIsServable(q);
    if !TakeGoes(q, blocking) || Busy(q.index, 0).None? then (q, None)
    else
      var p := Busy(q.index, 0).value;
      var d := q.index[p][0];
      (ServeHead(q, p), Some(Served(d, q.data[d][0])))
  }

  /** The original's report of a dequeue error is reached exactly by a call that does not block on an
      empty queue that has been signaled. */
  lemma ErrorBranch<T>(q: Queue<T>, blocking: bool)
    requires Inv(q)
    ensures TakeGoes(q, blocking) && Busy(q.index, 0).None? <==> q.signaled && !blocking && Size(q.data) == 0
  {
    BacklogIsServable(q);
  }

  lemma HeadIsHighest<T>(q: Queue<T>)
    requires Inv(q) && Busy(q.index, 0).Some?
    ensures var p := Busy(q.index, 0).value;
            && q.index[p][0] < |q.data| && PriorityOf(q.maxWeight, q.index[p][0]) == p
            && forall k | 0 <= k < |q.data| && q.data[k] != [] :: p <= PriorityOf(q.maxWeight, k)
  {
    var p := Busy(q.index, 0).value;
    assert NamesOwn(q, p) && q.index[p][0] in q.index[p];
    forall k | 0 <= k < |q.data| && q.data[k] != [] ensures p <= PriorityOf(q.maxWeight, k) {
      assert Counts(q, k);
      assert k in multiset(q.index[PriorityOf(q.maxWeight, k)]);
    }
  }

  /** A dequeue that yields an entry takes the oldest of one class of the highest backlogged priority and
      touches no other class.  It yields none exactly when it does not go or the queue is empty; a queue
      that was not signaled, with a `size_t` of 32 bits, yields none only when it is empty, and with one
      of 64 bits also when it holds a multiple of 2^32 entries. */
  lemma DequeueTakesOldest<T>(q: Queue<T>, blocking: bool)
    requires Inv(q)
    ensures var (r, s) := Dequeued(q, blocking);
            && Inv(r)
            && (s.None? <==> !TakeGoes(q, blocking) || forall d | 0 <= d < |q.data| :: q.data[d] == [])
            && (!q.signaled ==> (s.None? <==> Wrap(Size(q.data)) == 0))
            && (!q.signaled && !q.wide ==> (s.None? <==> forall d | 0 <= d < |q.data| :: q.data[d] == []))
            && (s.None? ==> r == q)
            && (s.Some? ==>
                  var d := s.value.d;
                  && d < |q.data| && q.data[d] == [s.value.entry] + r.data[d]
                  && r.data == q.data[d := r.data[d]]
                  && forall k | 0 <= k < |q.data| && q.data[k] != [] ::
                       PriorityOf(q.maxWeight, d) <= PriorityOf(q.maxWeight, k))
  {
    hide Counts, NamesOwn, Size;
    BacklogIsServable(q);
    SizeZero(q.data);
    if Dequeued(q, blocking).1.Some? {
      ServeHeadInv(q, Busy(q.index, 0).value);
      HeadIsHighest(q);
    }
  }

  // ----- runs -----

  datatype Op<T> = Put(entry: T, blocking: bool, priority: nat, weight: nat) | Take(blocking: bool) | Clear | Signal

  predicate LegalOp<T>(q: Queue<T>, op: Op<T>) {
    op.Put? ==> HasClass(q, op.priority, op.weight)
  }

  predicate Legal<T>(q: Queue<T>, ops: seq<Op<T>>) {
    forall i | 0 <= i < |ops| :: LegalOp(q, ops[i])
  }

  /** One operation.  A call that does not go changes nothing. */
  function Step<T>(q: Queue<T>, op: Op<T>): Queue<T>
    requires Inv(q) && LegalOp(q, op)
  {
    match op
    case Put(e, blocking, p, w) =>
      ClassIsAddressed(q, p, w);
      if PutGoes(q, blocking) then Enqueued(q, e, p, w) else q
    case Take(blocking) => Dequeued(q, blocking).0
    case Clear => Empty(q.numPriority, q.maxWeight, q.wide, q.signaled)
    case Signal => q.(signaled := true)
  }

  lemma StepInv<T>(q: Queue<T>, op: Op<T>)
    requires Inv(q) && LegalOp(q, op)
    ensures Inv(Step(q, op))
    ensures Step(q, op).numPriority == q.numPriority && Step(q, op).maxWeight == q.maxWeight
  {
    match op
    case Put(e, blocking, p, w) =>
      ClassIsAddressed(q, p, w);
      if PutGoes(q, blocking) { EnqueueInv(q, e, p, w); }
    case Take(blocking) => DequeueTakesOldest(q, blocking);
    case Clear => InitInv<T>(q.numPriority, q.maxWeight, q.wide, q.signaled);
    case Signal => SignalInv(q);
  }

  lemma SignalInv<T>(q: Queue<T>)
    requires Inv(q)
    ensures Inv(q.(signaled := true))
  {
    var r := q.(signaled := true);
    forall p | 0 <= p < r.numPriority ensures NamesOwn(r, p) {
      assert NamesOwn(q, p);
    }
    forall d | 0 <= d < |r.data| ensures Counts(r, d) {
      assert Counts(q, d);
    }
  }

  function Run<T>(q: Queue<T>, ops: seq<Op<T>>): Queue<T>
    requires Inv(q) && Legal(q, ops)
    decreases |ops|
  {
    if ops == [] then q
    else
      StepInv(q, ops[0]);
      Run(Step(q, ops[0]), ops[1..])
  }

  /** What one operation puts into class d, and what it takes out of it. */
  function Entering<T>(q: Queue<T>, op: Op<T>, d: nat): seq<T>
    requires Inv(q) && LegalOp(q, op)
  {
    if op.Put? && PutGoes(q, op.blocking) && ClassIndex(q.maxWeight, op.priority, op.weight) == d then [op.entry]
    else []
  }

  function Leaving<T>(q: Queue<T>, op: Op<T>, d: nat): seq<T>
    requires Inv(q) && d < |q.data|
  {
    match op
    case Take(blocking) =>
      var s := Dequeued(q, blocking).1;
      if s.Some? && s.value.d == d then [s.value.entry] else []
    case Clear => q.data[d]
    case _ => []
  }

  function Entered<T>(q: Queue<T>, ops: seq<Op<T>>, d: nat): seq<T>
    requires Inv(q) && Legal(q, ops)
    decreases |ops|
  {
    if ops == [] then []
    else
      StepInv(q, ops[0]);
      Entering(q, ops[0], d) + Entered(Step(q, ops[0]), ops[1..], d)
  }

  function Left<T>(q: Queue<T>, ops: seq<Op<T>>, d: nat): seq<T>
    requires Inv(q) && Legal(q, ops) && d < |q.data|
    decreases |ops|
  {
    if ops == [] then []
    else
      StepInv(q, ops[0]);
      Leaving(q, ops[0], d) + Left(Step(q, ops[0]), ops[1..], d)
  }

  lemma StepIsFifo<T>(q: Queue<T>, op: Op<T>, d: nat)
    requires Inv(q) && LegalOp(q, op) && d < |q.data|
    ensures |Step(q, op).data| == |q.data|
    ensures q.data[d] + Entering(q, op, d) == Leaving(q, op, d) + Step(q, op).data[d]
  {
    match op
    case Put(e, blocking, p, w) => ClassIndexFits(q.numPriority, q.maxWeight, p, w);
    case Take(blocking) => DequeueTakesOldest(q, blocking);
    case _ =>
  }

  /** In every run and for every class: what was there and what entered is exactly what left, by
      dequeues or a flush, followed by what remains.  Nothing is lost or duplicated, and a class is first
      in, first out. */
  lemma {:induction false} ClassesAreFifo<T>(q: Queue<T>, ops: seq<Op<T>>, d: nat)
    requires Inv(q) && Legal(q, ops) && d < |q.data|
    ensures Inv(Run(q, ops)) && |Run(q, ops).data| == |q.data|
    ensures q.data[d] + Entered(q, ops, d) == Left(q, ops, d) + Run(q, ops).data[d]
    decreases |ops|
  {
    if ops != [] {
      StepInv(q, ops[0]);
      StepIsFifo(q, ops[0], d);
      ClassesAreFifo(Step(q, ops[0]), ops[1..], d);
      Splice(q.data[d], Entering(q, ops[0], d), Leaving(q, ops[0], d), Step(q, ops[0]).data[d],
             Entered(Step(q, ops[0]), ops[1..], d), Left(Step(q, ops[0]), ops[1..], d), Run(q, ops).data[d]);
    }
  }

  lemma Splice<T>(a: seq<T>, e: seq<T>, l: seq<T>, b: seq<T>, es: seq<T>, ls: seq<T>, c: seq<T>)
    requires a + e == l + b && b + es == ls + c
    ensures a + (e + es) == (l + ls) + c
  {
    calc {
      a + (e + es);
      (a + e) + es;
      (l + b) + es;
      l + (b + es);
      l + (ls + c);
      (l + ls) + c;
    }
  }

  // ----- who gets in and who gets out -----

  /** A call gets in exactly if there is room or the queue has been signaled and the call does not block:
      only a queue with a `size_t` of 32 bits that holds 2^32 - 1 entries has no room.  The entry goes to
      the end of its class and no other class changes; a call that does not get in changes nothing. */
  lemma PutEntersUnlessFull<T>(q: Queue<T>, entry: T, blocking: bool, priority: nat, weight: nat)
    requires Inv(q) && HasClass(q, priority, weight)
    ensures var r, d := Step(q, Put(entry, blocking, priority, weight)), ClassIndex(q.maxWeight, priority, weight);
            && d < |q.data|
            && if (if q.signaled then !blocking else q.wide || Size(q.data) < 0xffff_ffff)
               then r.data == q.data[d := q.data[d] + [entry]] && Size(r.data) == Size(q.data) + 1
               else r == q
  {
    hide Inv, Counts, NamesOwn, Size;
    InvParts(q);
    var d := ClassIndex(q.maxWeight, priority, weight);
    ClassIsAddressed(q, priority, weight);
    WrapNext(Size(q.data));
    SizeUpdate(q.data, d, q.data[d] + [entry]);
  }

  lemma InvParts<T>(q: Queue<T>)
    requires Inv(q)
    ensures Sized(q) && q.total == Wrap(Size(q.data)) && (!q.wide && !q.signaled ==> Size(q.data) <= MAX_SIZE)
  {
  }

  /** A call takes an entry exactly if there is one and it does not give up: a call that blocks gives up on a
      queue that has been signaled, and every call finds a queue empty that holds a multiple of 2^32 entries
      and has not been signaled.  One entry leaves, or nothing changes. */
  lemma TakeYieldsUnlessEmpty<T>(q: Queue<T>, blocking: bool)
    requires Inv(q)
    ensures var r := Step(q, Take(blocking));
            if (if q.signaled then !blocking && Size(q.data) > 0 else Size(q.data) % 0x1_0000_0000 != 0)
            then Size(r.data) == Size(q.data) - 1 && Dequeued(q, blocking).1.Some?
            else r == q && Dequeued(q, blocking).1.None?
  {
    hide Inv, Counts, NamesOwn, Size;
    InvParts(q);
    BacklogIsServable(q);
    if Dequeued(q, blocking).1.Some? {
      var d := q.index[Busy(q.index, 0).value][0];
      SizeUpdate(q.data, d, q.data[d][1..]);
    }
  }

  // ----- fairness -----

  /** The data queue that one operation serves from priority p. */
  function Serving<T>(q: Queue<T>, op: Op<T>, p: nat): seq<nat>
    requires Inv(q)
  {
    if op.Take? && Dequeued(q, op.blocking).1.Some? && Busy(q.index, 0) == Some(p)
    then [Dequeued(q, op.blocking).1.value.d] else []
  }

  /** The data queues served from priority p in a run, in order. */
  function ServedFrom<T>(q: Queue<T>, ops: seq<Op<T>>, p: nat): seq<nat>
    requires Inv(q) && Legal(q, ops)
    decreases |ops|
  {
    if ops == [] then []
    else
      StepInv(q, ops[0]);
      Serving(q, ops[0], p) + ServedFrom(Step(q, ops[0]), ops[1..], p)
  }

  lemma StepIndex<T>(q: Queue<T>, op: Op<T>, p: nat) returns (added: seq<nat>)
    requires Inv(q) && LegalOp(q, op) && p < q.numPriority && !op.Clear?
    ensures p < |Step(q, op).index| && q.index[p] + added == Serving(q, op, p) + Step(q, op).index[p]
  {
    added := [];
    BacklogIsServable(q);
    match op
    case Put(e, blocking, pr, w) =>
      var d := ClassIndex(q.maxWeight, pr, w);
      ClassIndexFits(q.numPriority, q.maxWeight, pr, w);
      if PutGoes(q, blocking) && IndexOf(pr) == p && |q.data[d]| < w {
        added := [d];
      }
    case Take(blocking) =>
      if TakeGoes(q, blocking) && Busy(q.index, 0) == Some(p) {
        var d := q.index[p][0];
        assert q.index[p] == [d] + q.index[p][1..];
        if |q.data[d][1..]| >= WeightOf(q.maxWeight, d) {
          added := [d];
          assert ([d] + q.index[p][1..]) + [d] == [d] + (q.index[p][1..] + [d]);
        }
      }
    case Signal =>
  }

  predicate Unflushed<T>(ops: seq<Op<T>>) {
    forall i | 0 <= i < |ops| :: !ops[i].Clear?
  }

  /** Index queue p is first in, first out through any run without a flush. */
  lemma {:induction false} IndexIsFifo<T>(q: Queue<T>, ops: seq<Op<T>>, p: nat) returns (added: seq<nat>)
    requires Inv(q) && Legal(q, ops) && p < q.numPriority && Unflushed(ops)
    ensures p < |Run(q, ops).index| && q.index[p] + added == ServedFrom(q, ops, p) + Run(q, ops).index[p]
    decreases |ops|
  {
    added := [];
    if ops != [] {
      StepInv(q, ops[0]);
      var r := Step(q, ops[0]);
      var first := StepIndex(q, ops[0], p);
      var more := IndexIsFifo(r, ops[1..], p);
      added := first + more;
      Splice(q.index[p], first, Serving(q, ops[0], p), r.index[p], more,
             ServedFrom(r, ops[1..], p), Run(q, ops).index[p]);
    }
  }

  /** Weighted fairness.  However enqueues are interleaved, until a flush the dequeues that priority p serves first,
      as many as its index queue is long, take from each of its data queues exactly as many entries as
      it had, or as its weight allows. */
  lemma FairRound<T>(q: Queue<T>, ops: seq<Op<T>>, p: nat, d: nat)
    requires Inv(q) && Legal(q, ops) && p < q.numPriority && Unflushed(ops)
    requires d < |q.data| && PriorityOf(q.maxWeight, d) == p
    requires |ServedFrom(q, ops, p)| >= |q.index[p]|
    ensures multiset(ServedFrom(q, ops, p)[..|q.index[p]|])[d] == Min(|q.data[d]|, WeightOf(q.maxWeight, d))
  {
    var added := IndexIsFifo(q, ops, p);
    var served := ServedFrom(q, ops, p);
    assert served[..|q.index[p]|] == q.index[p] by {
      assert (q.index[p] + added)[..|q.index[p]|] == q.index[p];
      assert (served + Run(q, ops).index[p])[..|q.index[p]|] == served[..|q.index[p]|];
    }
    assert Counts(q, d);
  }

  /** The length of a round: what each weight of priority p contributes, for weights up to n. */
  function Round<T>(q: Queue<T>, p: nat, n: nat): nat
    requires Sized(q) && p < q.numPriority && n <= q.maxWeight
  {
    if n == 0 then 0
    else
      ClassIndexFits(q.numPriority, q.maxWeight, p + 1, n);
      Round(q, p, n - 1) + Min(|q.data[ClassIndex(q.maxWeight, p + 1, n)]|, n)
  }

  lemma ClassRange(maxWeight: nat, d: nat, p: nat)
    requires 1 <= maxWeight <= MAX_MAX_WEIGHT && PriorityOf(maxWeight, d) == p
    ensures Times(p, maxWeight) <= d < Times(p, maxWeight) + maxWeight
  {
    assert maxWeight == 1 || maxWeight == 2 || maxWeight == 3;
  }

  function Occurrences(s: seq<nat>, lo: nat, n: nat): nat {
    if n == 0 then 0 else Occurrences(s, lo, n - 1) + multiset(s)[lo + n - 1]
  }

  lemma {:induction false} OccurrencesTail(s: seq<nat>, lo: nat, n: nat)
    requires s != []
    ensures Occurrences(s, lo, n) == Occurrences(s[1..], lo, n) + (if lo <= s[0] < lo + n then 1 else 0)
  {
    assert s == [s[0]] + s[1..];
    if n > 0 {
      OccurrencesTail(s, lo, n - 1);
    }
  }

  lemma {:induction false} OccurrencesEmpty(lo: nat, n: nat)
    ensures Occurrences([], lo, n) == 0
  {
    if n > 0 {
      OccurrencesEmpty(lo, n - 1);
    }
  }

  lemma {:induction false} AllOccurrences(s: seq<nat>, lo: nat, n: nat)
    requires forall i | 0 <= i < |s| :: lo <= s[i] < lo + n
    ensures Occurrences(s, lo, n) == |s|
  {
    if s == [] {
      OccurrencesEmpty(lo, n);
    } else {
      OccurrencesTail(s, lo, n);
      AllOccurrences(s[1..], lo, n);
    }
  }

  lemma {:induction false} RoundCounts<T>(q: Queue<T>, p: nat, n: nat)
    requires Inv(q) && p < q.numPriority && n <= q.maxWeight
    ensures Round(q, p, n) == Occurrences(q.index[p], Times(p, q.maxWeight), n)
  {
    if n > 0 {
      RoundCounts(q, p, n - 1);
      WeightCounts(q, p, n);
    }
  }

  lemma WeightCounts<T>(q: Queue<T>, p: nat, n: nat)
    requires Inv(q) && p < q.numPriority && 1 <= n <= q.maxWeight
    ensures ClassIndex(q.maxWeight, p + 1, n) < |q.data|
    ensures multiset(q.index[p])[Times(p, q.maxWeight) + n - 1] == Min(|q.data[ClassIndex(q.maxWeight, p + 1, n)]|, n)
  {
    ClassIndexFits(q.numPriority, q.maxWeight, p + 1, n);
    assert Counts(q, ClassIndex(q.maxWeight, p + 1, n));
  }

  function Triangle(n: nat): nat {
    if n == 0 then 0 else Triangle(n - 1) + n
  }

  lemma {:induction false} RoundBound<T>(q: Queue<T>, p: nat, n: nat)
    requires Sized(q) && p < q.numPriority && n <= q.maxWeight
    ensures Round(q, p, n) <= Triangle(n)
  {
    if n > 0 {
      RoundBound(q, p, n - 1);
    }
  }

  /** A round never exceeds the sum of all weights. */
  lemma RoundLength<T>(q: Queue<T>, p: nat)
    requires Inv(q) && p < q.numPriority
    ensures |q.index[p]| == Round(q, p, q.maxWeight) <= q.maxWeight * (q.maxWeight + 1) / 2
  {
    RoundCounts(q, p, q.maxWeight);
    RoundBound(q, p, q.maxWeight);
    assert q.maxWeight == 0 || q.maxWeight == 1 || q.maxWeight == 2 || q.maxWeight == 3;
    assert Triangle(0) == 0 && Triangle(1) == 1 && Triangle(2) == 3 && Triangle(3) == 6;
    forall i | 0 <= i < |q.index[p]|
      ensures Times(p, q.maxWeight) <= q.index[p][i] < Times(p, q.maxWeight) + q.maxWeight {
      assert NamesOwn(q, p) && q.index[p][i] in q.index[p];
      ClassRange(q.maxWeight, q.index[p][i], p);
    }
    AllOccurrences(q.index[p], Times(p, q.maxWeight), q.maxWeight);
  }

  // ----- the queue in place -----

  /** How a call ends: with a value, or not yet. */
  datatype Status = Returns(value: int) | Waits

  /** A 32-bit unsigned word returned as `int`. */
  function AsInt(n: nat): int {
    if n < 0x8000_0000 then n else n - WORD
  }

  /** What is returned is the number of entries while an `int` holds it, and in any case the one `int` that
      differs from it by a multiple of 2^32. */
  lemma CountIsReturned<T>(q: Queue<T>, value: int)
    requires q.total == Wrap(Size(q.data))
    ensures AsInt(q.total) == value <==>
              -0x8000_0000 <= value < 0x8000_0000 && (Size(q.data) - value) % 0x1_0000_0000 == 0
    ensures Size(q.data) < 0x8000_0000 ==> AsInt(q.total) == Size(q.data)
  {
    hide Size;
  }

  /** The queue as the original keeps it: two arrays of lists and a counter. */
  class JobQueue<T> {
    const numPriority: nat
    const maxWeight: nat
    const wide: bool
    const indexQueue: array<seq<nat>>
    const dataQueue: array<seq<T>>
    var total: nat
    var signaled: bool

    ghost function Model(): Queue<T>
      reads this, indexQueue, dataQueue
    {
      Queue(numPriority, maxWeight, wide, signaled, indexQueue[..], dataQueue[..], total)
    }

    ghost predicate Valid()
      reads this, indexQueue, dataQueue
    {
      indexQueue as object != dataQueue as object && Inv(Model())
    }

    constructor (numPriority: nat, maxWeight: nat, wide: bool)
      requires numPriority <= MAX_NUM_PRIORITY && maxWeight <= MAX_MAX_WEIGHT
      ensures Valid() && Model() == Empty(numPriority, maxWeight, wide, false)
      ensures fresh(indexQueue) && fresh(dataQueue)
    {
      Arithmetic(maxWeight, numPriority);
      this.numPriority, this.maxWeight, this.wide := numPriority, maxWeight, wide;
      indexQueue := new seq<nat>[numPriority](i => []);
      dataQueue := new seq<T>[numPriority * maxWeight](i => []);
      total, signaled := 0, false;
      new;
      InitInv<T>(numPriority, maxWeight, wide, false);
      assert Model() == Empty(numPriority, maxWeight, wide, false);
    }

    /** The constructor's own checks: too many priorities or too large a weight is refused. */
    static method Create(numPriority: nat, maxWeight: nat, wide: bool) returns (q: JobQueue?<T>)
      ensures q == null <==> numPriority > MAX_NUM_PRIORITY || maxWeight > MAX_MAX_WEIGHT
      ensures q != null ==> fresh(q) && q.Valid() && q.Model() == Empty(numPriority, maxWeight, wide, false)
    {
      if numPriority > MAX_NUM_PRIORITY {
        return null;
      }
      if maxWeight > MAX_MAX_WEIGHT {
        return null;
      }
      q := new JobQueue(numPriority, maxWeight, wide);
    }

    /** 0 when the queue is full, -1 when a blocking call meets a signal, else the new count.  The caller
        gives a priority and a weight that address existing lists; the invariant holds on exactly if the
        weight does no harm. */
    method Enqueue(entry: T, blocking: bool, priority: nat, weight: nat) returns (status: Status)
      requires Valid() && (PutGoes(Model(), blocking) ==> Addresses(Model(), priority, weight))
      modifies this`total, indexQueue, dataQueue
      ensures Model() == if PutGoes(old(Model()), blocking) then Enqueued(old(Model()), entry, priority, weight)
                         else old(Model())
      ensures Valid() <==> !PutGoes(old(Model()), blocking) || Harmless(old(Model()), priority, weight)
      ensures status == if PutGoes(old(Model()), blocking) then Returns(AsInt(total))
                        else if signaled then Returns(-1)
                        else if blocking then Waits else Returns(0)
    {
      hide Wrap, Counts, NamesOwn, Size;
      if !signaled && !wide && total == MAX_SIZE {
        if !blocking {
          return Returns(0);
        }
        return Waits;
      }
      if signaled && blocking {
        return Returns(-1);
      }
      EnqueueInvUnlessHarmful(Model(), entry, priority, weight);
      Arithmetic(maxWeight, IndexOf(priority));
      var pIndex := IndexOf(priority);
      var dIndex := pIndex * maxWeight + (Min(weight, MAX_MAX_WEIGHT) - 1);
      if |dataQueue[dIndex]| < weight {
        indexQueue[pIndex] := indexQueue[pIndex] + [dIndex];
      }
      dataQueue[dIndex] := dataQueue[dIndex] + [entry];
      total := Wrap(total + 1);
      assert Model() == Enqueued(old(Model()), entry, priority, weight);
      return Returns(AsInt(total));
    }

    /** The body of the serving loop for the priority found. */
    method TakeHead(p: nat) returns (entry: T)
      requires Valid() && p < numPriority && indexQueue[p] != []
      requires indexQueue[p][0] < dataQueue.Length && dataQueue[indexQueue[p][0]] != [] && maxWeight > 0
      modifies this`total, indexQueue, dataQueue
      ensures Model() == ServeHead(old(Model()), p)
      ensures entry == old(dataQueue[indexQueue[p][0]])[0]
    {
      hide Wrap, Counts, NamesOwn, Size;
      ghost var q := Model();
      var dIndex := indexQueue[p][0];
      Arithmetic(maxWeight, dIndex);
      indexQueue[p] := indexQueue[p][1..];
      entry := dataQueue[dIndex][0];
      dataQueue[dIndex] := dataQueue[dIndex][1..];
      if |dataQueue[dIndex]| >= dIndex % maxWeight + 1 {
        indexQueue[p] := indexQueue[p] + [dIndex];
      }
      total := Wrap(total - 1);
      assert Model() == ServeHead(q, p);
    }

    /** 1 with an entry, 0 on an empty queue, -1 when a blocking call meets a signal. */
    method Dequeue(blocking: bool) returns (status: Status, entry: Option<T>)
      requires Valid()
      modifies this`total, indexQueue, dataQueue
      ensures Valid()
      ensures Model() == Dequeued(old(Model()), blocking).0
      ensures entry == match Dequeued(old(Model()), blocking).1 case None => None case Some(s) => Some(s.entry)
      ensures status == if entry.Some? then Returns(1)
                        else if signaled && blocking then Returns(-1)
                        else if !signaled && blocking then Waits else Returns(0)
    {
      hide Wrap, Counts, NamesOwn, Size;
      entry := None;
      if !signaled && total == 0 {
        if !blocking {
          return Returns(0), None;
        }
        return Waits, None;
      }
      if signaled && blocking {
        return Returns(-1), None;
      }
      ghost var q := Model();
      BacklogIsServable(q);
      DequeueTakesOldest(q, blocking);
      var found := false;
      var p := 0;
      while p < numPriority
        invariant 0 <= p <= numPriority && !found && entry == None && Model() == q
        invariant forall k | 0 <= k < p :: indexQueue[k] == []
      {
        if indexQueue[p] == [] {
          p := p + 1;
          continue;
        }
        assert Busy(q.index, 0) == Some(p);
        var head := TakeHead(p);
        entry := Some(head);
        found := true;
        break;
      }
      if !found {
        assert Busy(q.index, 0).None?;
        return Returns(0), None;
      }
      return Returns(1), entry;
    }

    method Flush()
      requires Valid()
      modifies this`total, indexQueue, dataQueue
      ensures Valid() && Model() == Step(old(Model()), Clear)
    {
      Arithmetic(maxWeight, numPriority);
      for i := 0 to numPriority
        invariant indexQueue.Length == numPriority
        invariant forall k | 0 <= k < i :: indexQueue[k] == []
      {
        indexQueue[i] := [];
      }
      for i := 0 to numPriority * maxWeight
        invariant dataQueue.Length == Times(numPriority, maxWeight) == numPriority * maxWeight
        invariant forall k | 0 <= k < numPriority :: indexQueue[k] == []
        invariant forall k | 0 <= k < i :: dataQueue[k] == []
      {
        dataQueue[i] := [];
      }
      total := 0;
      InitInv<T>(numPriority, maxWeight, wide, signaled);
      assert Model() == Empty(numPriority, maxWeight, wide, signaled);
    }

    /** Threads that wait are to give up. */
    method SignalAll()
      requires Valid()
      modifies this`signaled
      ensures Valid() && Model() == Step(old(Model()), Signal)
    {
      SignalInv(Model());
      signaled := true;
    }
  }
}
