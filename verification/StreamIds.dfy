/**
  Stream identifiers (src/kcpmux_conn.c): allocation of local ones in a 32-bit
  ring split by parity, and the high-water mark that tells new peer ones from
  old.
 */
module StreamIds {
  import opened Sets

  const RING: int := 0x1_0000_0000
  const HALF: int := 0x8000_0000

  type Id = x: int | 0 <= x < RING

  /** Unsigned 32-bit addition and subtraction. */
  function Plus(a: Id, b: Id): Id {
    if a + b < RING then a + b else a + b - RING
  }

  function Minus(a: Id, b: Id): Id {
    if a >= b then a - b else a - b + RING
  }

  // Allocation.

  /** Initiators own the odd identifiers, acceptors the even ones except zero. */
  predicate Owns(isInitiator: bool, id: Id) {
    id != 0 && (id % 2 == 1) == isInitiator
  }

  /** How many identifiers a side owns, and the one at a position in its ring. */
  function Owned(isInitiator: bool): int {
    if isInitiator then HALF else HALF - 1
  }

  function Nth(isInitiator: bool, k: int): Id
    requires 0 <= k < Owned(isInitiator)
  {
    if isInitiator then 2 * k + 1 else 2 * k + 2
  }

  function Position(isInitiator: bool, id: Id): (k: int)
    requires Owns(isInitiator, id)
    ensures 0 <= k < Owned(isInitiator) && Nth(isInitiator, k) == id
  {
    if isInitiator then (id - 1) / 2 else (id - 2) / 2
  }

  /** The identifier that an allocation tries first. */
  function Candidate(isInitiator: bool, next: Id): Id {
    if next == 0 then if isInitiator then 1 else 2 else next
  }

  /** What `next` may be: an owned identifier, or zero for an acceptor that wrapped. */
  predicate Ready(isInitiator: bool, next: Id) {
    Owns(isInitiator, next) || (next == 0 && !isInitiator)
  }

  /** The position after the one at `k`. */
  function After(isInitiator: bool, k: int): int {
    if k + 1 == Owned(isInitiator) then 0 else k + 1
  }

  /** The position tried after `j` probes, during the first round. */
  function Probe(isInitiator: bool, start: int, j: int): (k: int)
    requires 0 <= start < Owned(isInitiator) && 0 <= j <= Owned(isInitiator)
    ensures 0 <= k < Owned(isInitiator)
  {
    if start + j < Owned(isInitiator) then start + j else start + j - Owned(isInitiator)
  }

  /** Stepping by two, with wrap-around and the skip over zero, walks the ring of owned identifiers. */
  lemma StepWalksRing(isInitiator: bool, k: int)
    requires 0 <= k < Owned(isInitiator)
    ensures var next := Plus(Nth(isInitiator, k), 2);
      Ready(isInitiator, next) &&
      Candidate(isInitiator, next) == Nth(isInitiator, After(isInitiator, k))
  {
  }

  class Allocator {
    const isInitiator: bool
    var next: Id
    var streams: set<Id>  // keys of the stream map
    var streamCount: int

    ghost predicate Valid()
      reads this
    {
      Ready(isInitiator, next) && streamCount == |streams|
    }

    /** The starting point is an arbitrary number forced to the side's parity. */
    constructor (isInitiator: bool, random: Id)
      ensures Valid() && streams == {} && this.isInitiator == isInitiator && next != 0
    {
      this.isInitiator := isInitiator;
      streams, streamCount := {}, 0;
      if isInitiator {
        next := if random % 2 == 1 then random else random + 1;
      } else {
        var even := if random % 2 == 1 then random - 1 else random;
        next := if even == 0 then 2 else even;
      }
    }

    /** An allocator at any point of its life. */
    constructor At(isInitiator: bool, next: Id, streams: set<Id>, streamCount: int)
      requires Ready(isInitiator, next) && streamCount == |streams|
      ensures Valid() && this.isInitiator == isInitiator && this.next == next && this.streams == streams
    {
      this.isInitiator, this.next, this.streams, this.streamCount := isInitiator, next, streams, streamCount;
    }

    /**
      An unused owned identifier is found if there is one at all, within one
      probe more than there are streams.
     */
    method Alloc() returns (id: Id, ghost probes: int)
      requires Valid()
      modifies this`next
      ensures Valid()
      ensures id != 0 ==> Owns(isInitiator, id) && id !in streams && next == Plus(id, 2)
      ensures id == 0 <==> forall k | 0 <= k < Owned(isInitiator) :: Nth(isInitiator, k) in streams
      ensures 1 <= probes <= streamCount + 1
    {
      ghost var start := Position(isInitiator, Candidate(isInitiator, next));
      ghost var at := start;
      var attempts := 0;
      while attempts <= streamCount
        invariant Valid() && 0 <= attempts <= streamCount + 1
        invariant 0 <= at < Owned(isInitiator) && Candidate(isInitiator, next) == Nth(isInitiator, at)
        invariant attempts <= Owned(isInitiator) ==> at == Probe(isInitiator, start, attempts)
        invariant forall j | 0 <= j < attempts && j < Owned(isInitiator) ::
            Nth(isInitiator, Probe(isInitiator, start, j)) in streams
      {
        StepWalksRing(isInitiator, at);
        at := After(isInitiator, at);
        id := Candidate(isInitiator, next);
        next := Plus(id, 2);
        attempts := attempts + 1;
        if id !in streams {
          return id, attempts;
        }
      }
      AllTried(isInitiator, start, attempts, streams);
      return 0, attempts;
    }
  }

  /** `n` probes in a row that all hit used identifiers, `n` exceeding their number, have tried every one. */
  lemma AllTried(isInitiator: bool, start: int, n: int, used: set<Id>)
    requires 0 <= start < Owned(isInitiator) && n == |used| + 1
    requires forall j | 0 <= j < n && j < Owned(isInitiator) :: Nth(isInitiator, Probe(isInitiator, start, j)) in used
    ensures forall k | 0 <= k < Owned(isInitiator) :: Nth(isInitiator, k) in used
  {
    var own := Owned(isInitiator);
    if n <= own {
      var tried := Tried(isInitiator, start, n);
      SubsetSize(tried, used);
      assert false;
    }
    forall k | 0 <= k < own ensures Nth(isInitiator, k) in used {
      var j := if start <= k then k - start else k + own - start;
      assert Probe(isInitiator, start, j) == k;
    }
  }

  /** The identifiers of the first `n` probes: all different while `n` is at most the size of the ring. */
  ghost function Tried(isInitiator: bool, start: int, n: int): (ids: set<Id>)
    requires 0 <= start < Owned(isInitiator) && 0 <= n <= Owned(isInitiator)
    ensures |ids| == n
    ensures forall id | id in ids :: exists j :: 0 <= j < n && id == Nth(isInitiator, Probe(isInitiator, start, j))
    decreases n
  {
    if n == 0 then {}
    else
      var before := Tried(isInitiator, start, n - 1);
      var id := Nth(isInitiator, Probe(isInitiator, start, n - 1));
      assert id !in before;
      before + {id}
  }

  /** With fewer streams than a side owns identifiers, one is free, so allocation succeeds. */
  lemma SomeIdIsFree(isInitiator: bool, used: set<Id>)
    requires |used| < HALF - 1
    ensures exists k :: 0 <= k < Owned(isInitiator) && Nth(isInitiator, k) !in used
  {
    if forall k | 0 <= k < Owned(isInitiator) :: Nth(isInitiator, k) in used {
      SubsetSize(Tried(isInitiator, 0, Owned(isInitiator)), used);
      assert false;
    }
  }

  // Peer identifiers.

  /** The latest peer identifier for which a stream was created, if any. */
  datatype Mark = Mark(initialized: bool, latest: Id)

  /** Whether a payload for an unknown stream may create it. */
  predicate IsNew(isInitiator: bool, m: Mark, id: Id) {
    && Owns(!isInitiator, id)
    && (m.initialized ==> 0 < Minus(id, m.latest) < HALF)
  }

  /** The mark moves when the stream is created, before the application or KCP can refuse it. */
  function Offer(isInitiator: bool, m: Mark, id: Id): Mark {
    if IsNew(isInitiator, m, id) then Mark(true, id) else m
  }

  function Offers(isInitiator: bool, m: Mark, ids: seq<Id>): Mark
    decreases |ids|
  {
    if ids == [] then m else Offers(isInitiator, Offer(isInitiator, m, ids[0]), ids[1..])
  }

  /** How far the mark moves in all. */
  function Travel(isInitiator: bool, m: Mark, ids: seq<Id>): int
    decreases |ids|
  {
    if ids == [] then 0
    else
      (if IsNew(isInitiator, m, ids[0]) && m.initialized then Minus(ids[0], m.latest) else 0)
      + Travel(isInitiator, Offer(isInitiator, m, ids[0]), ids[1..])
  }

  /** The mark stands where its travel has taken it, rounds of the ring apart. */
  lemma {:induction false} TravelMovesMark(isInitiator: bool, m: Mark, ids: seq<Id>) returns (rounds: int)
    requires m.initialized
    ensures Offers(isInitiator, m, ids).initialized && 0 <= Travel(isInitiator, m, ids)
    ensures m.latest + Travel(isInitiator, m, ids) == Offers(isInitiator, m, ids).latest + rounds * RING
    decreases |ids|
  {
    if ids == [] {
      rounds := 0;
    } else {
      var n := Offer(isInitiator, m, ids[0]);
      var more := TravelMovesMark(isInitiator, n, ids[1..]);
      if IsNew(isInitiator, m, ids[0]) {
        rounds := more + if ids[0] >= m.latest then 0 else 1;
      } else {
        rounds := more;
      }
    }
  }

  /**
    No stream is resurrected.  After `id` was taken as new, no run of offers,
    whatever becomes of the streams they create, makes it new again before the
    mark has travelled more than half the ring.
   */
  lemma NoResurrection(isInitiator: bool, m: Mark, id: Id, ids: seq<Id>)
    requires IsNew(isInitiator, m, id)
    requires IsNew(isInitiator, Offers(isInitiator, Offer(isInitiator, m, id), ids), id)
    ensures Travel(isInitiator, Offer(isInitiator, m, id), ids) > HALF
  {
    var taken := Offer(isInitiator, m, id);
    var rounds := TravelMovesMark(isInitiator, taken, ids);
  }

  /** The mark of a connection for whose peer no stream was created yet. */
  const UNMARKED: Mark := Mark(false, 0)

  /** Each identifier was new when its turn came. */
  ghost predicate Renewed(isInitiator: bool, ids: seq<Id>) {
    forall i | 0 <= i < |ids| :: IsNew(isInitiator, Offers(isInitiator, UNMARKED, ids[..i]), ids[i])
  }

  lemma {:induction false} OffersJoin(isInitiator: bool, m: Mark, ids: seq<Id>, more: seq<Id>)
    ensures Offers(isInitiator, m, ids + more) == Offers(isInitiator, Offers(isInitiator, m, ids), more)
    decreases |ids|
  {
    if ids == [] {
      assert [] + more == more;
    } else {
      assert (ids + more)[1..] == ids[1..] + more;
      OffersJoin(isInitiator, Offer(isInitiator, m, ids[0]), ids[1..], more);
    }
  }

  /** One more stream is created. */
  lemma RenewedGrows(isInitiator: bool, ids: seq<Id>, id: Id)
    requires Renewed(isInitiator, ids) && IsNew(isInitiator, Offers(isInitiator, UNMARKED, ids), id)
    ensures Renewed(isInitiator, ids + [id]) && Offers(isInitiator, UNMARKED, ids + [id]) == Mark(true, id)
  {
    hide IsNew, Offers;
    OffersJoin(isInitiator, UNMARKED, ids, [id]);
    OneOffer(isInitiator, Offers(isInitiator, UNMARKED, ids), id);
    var all := ids + [id];
    forall i | 0 <= i < |all| ensures IsNew(isInitiator, Offers(isInitiator, UNMARKED, all[..i]), all[i]) {
      assert all[..i] == ids[..i];
    }
    assert ids[..|ids|] == ids;
  }

  lemma OneOffer(isInitiator: bool, m: Mark, id: Id)
    requires IsNew(isInitiator, m, id)
    ensures Offers(isInitiator, m, [id]) == Mark(true, id)
  {
  }

  /**
    Of the streams created on a connection, two can only have the same
    identifier if the mark travelled more than half the ring in between.
   */
  lemma NeverTwice(isInitiator: bool, ids: seq<Id>, i: nat, j: nat)
    requires Renewed(isInitiator, ids) && i < j < |ids| && ids[i] == ids[j]
    ensures Travel(isInitiator, Mark(true, ids[i]), ids[i + 1..j]) > HALF
  {
    hide IsNew, Travel, Offers;
    var m := Offers(isInitiator, UNMARKED, ids[..i]);
    assert IsNew(isInitiator, m, ids[i]) && IsNew(isInitiator, Offers(isInitiator, UNMARKED, ids[..j]), ids[j]);
    assert ids[..j] == ids[..i] + ([ids[i]] + ids[i + 1..j]);
    OffersJoin(isInitiator, UNMARKED, ids[..i], [ids[i]] + ids[i + 1..j]);
    OffersJoin(isInitiator, m, [ids[i]], ids[i + 1..j]);
    OneOffer(isInitiator, m, ids[i]);
    NoResurrection(isInitiator, m, ids[i], ids[i + 1..j]);
  }

  /** Identifiers of the right parity that arrive in order, less than half the ring apart, are all taken. */
  lemma {:induction false} InOrderIsTaken(isInitiator: bool, m: Mark, ids: seq<Id>)
    requires forall i | 0 <= i < |ids| :: Owns(!isInitiator, ids[i])
    requires ids != [] && m.initialized ==> 0 < Minus(ids[0], m.latest) < HALF
    requires forall i | 0 < i < |ids| :: 0 < Minus(ids[i], ids[i - 1]) < HALF
    ensures forall i | 0 <= i < |ids| :: IsNew(isInitiator, Offers(isInitiator, m, ids[..i]), ids[i])
    decreases |ids|
  {
    if ids != [] {
      var n := Offer(isInitiator, m, ids[0]);
      InOrderIsTaken(isInitiator, n, ids[1..]);
      forall i | 0 <= i < |ids| ensures IsNew(isInitiator, Offers(isInitiator, m, ids[..i]), ids[i]) {
        if i > 0 {
          assert ids[..i][1..] == ids[1..][..i - 1];
          assert ids[1..][i - 1] == ids[i];
        }
      }
    }
  }

  /** `n` allocations further on in a side's ring. */
  function Later(isInitiator: bool, id: Id, n: nat): (r: Id)
    requires Owns(isInitiator, id)
    ensures Owns(isInitiator, r)
  {
    if n == 0 then id
    else
      var before := Later(isInitiator, id, n - 1);
      Candidate(isInitiator, Plus(before, 2))
  }

  /** A peer that allocates fewer than a quarter ring of identifiers between two deliveries stays in order. */
  lemma {:induction false} AllocationAdvances(isInitiator: bool, id: Id, n: nat)
    requires Owns(isInitiator, id) && n < HALF / 2 - 1
    ensures var d := Minus(Later(isInitiator, id, n), id); d == 2 * n || d == 2 * n + 2
    ensures Minus(Later(isInitiator, id, n), id) == 2 * n + 2 ==> Later(isInitiator, id, n) < id && !isInitiator
    ensures Later(isInitiator, id, n) >= id ==> Minus(Later(isInitiator, id, n), id) == 2 * n
    ensures n > 0 ==> 0 < Minus(Later(isInitiator, id, n), id) < HALF
  {
    if n > 0 {
      AllocationAdvances(isInitiator, id, n - 1);
    }
  }
}
