/** The list of pending fences of one semaphore-surface context: what one locked
    scan takes off it and where a new fence goes. */
module FenceList {

  /** `id` is the order in which fences were added to the context. */
  datatype Fence = Fence(id: nat, seqno: nat, timeout: nat)

  ghost predicate Before(a: Fence, b: Fence) {
    a.seqno < b.seqno || (a.seqno == b.seqno && a.id < b.id)
  }

  /** Sorted by sequence number, equal numbers in order of arrival. */
  ghost predicate Sorted(p: seq<Fence>) {
    forall i, j :: 0 <= i < j < |p| ==> Before(p[i], p[j])
  }

  datatype ScanResult = ScanResult(finished: seq<Fence>, timedOut: seq<Fence>, rest: seq<Fence>)

  /** The locked scan: take fences off the head while they are reached or expired. */
  function Scan(p: seq<Fence>, current: nat, now: nat): ScanResult {
    if p == [] then ScanResult([], [], [])
    else if p[0].seqno <= current then
      var r := Scan(p[1..], current, now);
      r.(finished := [p[0]] + r.finished)
    else if p[0].timeout <= now then
      var r := Scan(p[1..], current, now);
      r.(timedOut := [p[0]] + r.timedOut)
    else ScanResult([], [], p)
  }

  /** What a scan is for, without saying how it walks the list. */
  ghost predicate IsScan(p: seq<Fence>, current: nat, now: nat, r: ScanResult) {
    && p == r.finished + r.timedOut + r.rest
    && (forall f :: f in r.finished ==> f.seqno <= current)
    && (forall f :: f in r.timedOut ==> current < f.seqno && f.timeout <= now)
    && (r.rest != [] ==> current < r.rest[0].seqno && now < r.rest[0].timeout)
  }

  lemma {:induction false} NoneReached(p: seq<Fence>, current: nat, now: nat)
    requires forall f :: f in p ==> current < f.seqno
    ensures Scan(p, current, now).finished == []
  {
    if p != [] && p[0].timeout <= now {
      NoneReached(p[1..], current, now);
    }
  }

  lemma SortedTail(p: seq<Fence>)
    requires Sorted(p) && p != []
    ensures Sorted(p[1..])
    ensures forall f :: f in p[1..] ==> p[0].seqno <= f.seqno
  {
  }

  lemma ConsScan(f: Fence, p: seq<Fence>, current: nat, now: nat, r: ScanResult)
    requires IsScan(p, current, now, r)
    ensures f.seqno <= current ==>
      IsScan([f] + p, current, now, r.(finished := [f] + r.finished))
    ensures current < f.seqno && f.timeout <= now && r.finished == [] ==>
      IsScan([f] + p, current, now, r.(timedOut := [f] + r.timedOut))
  {
    assert [f] + (r.finished + r.timedOut + r.rest) == ([f] + r.finished) + r.timedOut + r.rest;
    if r.finished == [] {
      assert [f] + (r.finished + r.timedOut + r.rest) == r.finished + ([f] + r.timedOut) + r.rest;
    }
  }

  /** The scan of a list whose head it takes off, from the scan of the rest. */
  lemma ReachedHead(p: seq<Fence>, current: nat, now: nat, r: ScanResult)
    requires p != [] && p[0].seqno <= current
    requires r == Scan(p[1..], current, now) && IsScan(p[1..], current, now, r)
    ensures IsScan(p, current, now, Scan(p, current, now))
  {
    ConsScan(p[0], p[1..], current, now, r);
    assert p == [p[0]] + p[1..];
  }

  lemma ExpiredHead(p: seq<Fence>, current: nat, now: nat, r: ScanResult)
    requires p != [] && current < p[0].seqno && p[0].timeout <= now
    requires forall f :: f in p[1..] ==> p[0].seqno <= f.seqno
    requires r == Scan(p[1..], current, now) && IsScan(p[1..], current, now, r)
    ensures IsScan(p, current, now, Scan(p, current, now))
  {
    NoneReached(p[1..], current, now);
    ConsScan(p[0], p[1..], current, now, r);
    assert p == [p[0]] + p[1..];
  }

  lemma {:induction false} ScanParts(p: seq<Fence>, current: nat, now: nat)
    requires Sorted(p)
    ensures IsScan(p, current, now, Scan(p, current, now))
  {
    if p != [] && (p[0].seqno <= current || p[0].timeout <= now) {
      SortedTail(p);
      ScanParts(p[1..], current, now);
      if p[0].seqno <= current {
        ReachedHead(p, current, now, Scan(p[1..], current, now));
      } else {
        ExpiredHead(p, current, now, Scan(p[1..], current, now));
      }
    }
  }

  lemma RestUnreached(p: seq<Fence>, current: nat, now: nat, r: ScanResult)
    requires Sorted(p) && IsScan(p, current, now, r)
    ensures forall f :: f in r.rest ==> current < f.seqno
    ensures Sorted(r.rest)
  {
    var k := |r.finished + r.timedOut|;
    assert forall i :: 0 <= i < |r.rest| ==> r.rest[i] == p[k + i];
    forall f | f in r.rest ensures current < f.seqno {
      var i :| 0 <= i < |r.rest| && r.rest[i] == f;
      assert i == 0 || Before(p[k], p[k + i]);
    }
  }

  /** Sorting is what makes the scan exact: `finished` is every reached fence of the
      whole list, `timedOut` the maximal expired run after them, and what stays
      pending is an unreached suffix in its old order. */
  lemma {:induction false} ScanExact(p: seq<Fence>, current: nat, now: nat)
    requires Sorted(p)
    ensures var r := Scan(p, current, now);
      && IsScan(p, current, now, r)
      && (forall f :: f in p ==> (f in r.finished <==> f.seqno <= current))
      && (forall f :: f in r.rest ==> current < f.seqno)
      && Sorted(r.rest)
  {
    ScanParts(p, current, now);
    RestUnreached(p, current, now, Scan(p, current, now));
  }

  /** The description determines the result, so nothing else than `Scan` meets it. */
  lemma {:induction false} ScanUnique(p: seq<Fence>, current: nat, now: nat, r: ScanResult)
    requires IsScan(p, current, now, r)
    ensures r == Scan(p, current, now)
    decreases |p|
  {
    if r.finished != [] {
      var r' := r.(finished := r.finished[1..]);
      assert p[0] == r.finished[0] && p[1..] == r'.finished + r'.timedOut + r'.rest;
      ScanUnique(p[1..], current, now, r');
    } else if r.timedOut != [] {
      var r' := r.(timedOut := r.timedOut[1..]);
      assert p[0] == r.timedOut[0] && p[1..] == r'.finished + r'.timedOut + r'.rest;
      ScanUnique(p[1..], current, now, r');
    } else {
      assert p == r.rest;
    }
  }

  /** A scan stopped on the way: what it has moved so far and what it has yet to see. */
  ghost predicate ScanSoFar(p: seq<Fence>, current: nat, now: nat, r: ScanResult) {
    var more := Scan(r.rest, current, now);
    Scan(p, current, now) == ScanResult(r.finished + more.finished, r.timedOut + more.timedOut, more.rest)
  }

  lemma {:induction false} ScanOneMore(p: seq<Fence>, current: nat, now: nat, r: ScanResult)
    requires ScanSoFar(p, current, now, r) && r.rest != []
    ensures r.rest[0].seqno <= current ==>
      ScanSoFar(p, current, now, ScanResult(r.finished + [r.rest[0]], r.timedOut, r.rest[1..]))
    ensures current < r.rest[0].seqno && r.rest[0].timeout <= now ==>
      ScanSoFar(p, current, now, ScanResult(r.finished, r.timedOut + [r.rest[0]], r.rest[1..]))
  {
    var more := Scan(r.rest[1..], current, now);
    assert r.finished + ([r.rest[0]] + more.finished) == (r.finished + [r.rest[0]]) + more.finished;
    assert r.timedOut + ([r.rest[0]] + more.timedOut) == (r.timedOut + [r.rest[0]]) + more.timedOut;
  }

  lemma ScanDone(p: seq<Fence>, current: nat, now: nat, r: ScanResult)
    requires Sorted(p) && ScanSoFar(p, current, now, r)
    requires r.rest == [] || (current < r.rest[0].seqno && now < r.rest[0].timeout)
    ensures r == Scan(p, current, now) && IsScan(p, current, now, r) && Sorted(r.rest)
  {
    assert r.finished + [] == r.finished && r.timedOut + [] == r.timedOut;
    ScanExact(p, current, now);
  }

  /** If the value at the head of a sorted list is not the one left at the head by a
      scan, the scan has taken something off. */
  lemma {:induction false} NewHeadShrinks(p: seq<Fence>, current: nat, now: nat)
    requires Sorted(p)
    ensures var r := Scan(p, current, now);
      && p == (r.finished + r.timedOut) + r.rest
      && (r.rest != [] && p[0].seqno != r.rest[0].seqno ==> |r.finished + r.timedOut| >= 1)
  {
    ScanExact(p, current, now);
  }

  /** Where a new fence goes: before the first one with a larger number. */
  function Position(p: seq<Fence>, seqno: nat): (k: nat)
    ensures k <= |p|
    ensures forall i :: 0 <= i < k ==> p[i].seqno <= seqno
    ensures k < |p| ==> seqno < p[k].seqno
  {
    if p == [] || p[0].seqno > seqno then 0 else 1 + Position(p[1..], seqno)
  }

  function Insert(p: seq<Fence>, f: Fence): seq<Fence> {
    var k := Position(p, f.seqno);
    p[..k] + [f] + p[k..]
  }

  lemma SplicedSorted(p: seq<Fence>, f: Fence, k: nat)
    requires Sorted(p) && k <= |p|
    requires forall i :: 0 <= i < k ==> Before(p[i], f)
    requires k < |p| ==> f.seqno < p[k].seqno
    ensures Sorted(p[..k] + [f] + p[k..])
  {
    var q := p[..k] + [f] + p[k..];
    forall i, j | 0 <= i < j < |q| ensures Before(q[i], q[j]) {
      if i == k {
        assert q[j] == p[j - 1];
        assert j == k + 1 || Before(p[k], p[j - 1]);
      } else if j != k {
        assert Before(p[if i < k then i else i - 1], p[if j < k then j else j - 1]);
      }
    }
  }

  lemma SplicedElements(p: seq<Fence>, f: Fence, k: nat)
    requires k <= |p|
    ensures multiset(p[..k] + [f] + p[k..]) == multiset(p) + multiset{f}
    ensures forall g :: g in p[..k] + [f] + p[k..] <==> g == f || g in p
  {
    assert p == p[..k] + p[k..];
    forall g ensures g in p[..k] + [f] + p[k..] <==> g == f || g in p {
      assert g in p <==> g in p[..k] || g in p[k..];
    }
  }

  lemma InsertSorted(p: seq<Fence>, f: Fence)
    requires Sorted(p)
    requires forall g :: g in p ==> g.id < f.id
    ensures Sorted(Insert(p, f))
    ensures multiset(Insert(p, f)) == multiset(p) + multiset{f}
    ensures forall g :: g in Insert(p, f) <==> g == f || g in p
  {
    var k := Position(p, f.seqno);
    assert forall i :: 0 <= i < k ==> p[i] in p;
    SplicedSorted(p, f, k);
    SplicedElements(p, f, k);
  }

  /** What the scan leaves in the context as the value to wait for, and what it
      asks the caller to register (zero for nothing). */
  datatype Retagged = Retagged(tag: nat, waitValue: nat, timeout: nat)

  function Retag(tag: nat, rest: seq<Fence>): Retagged {
    if rest == [] then Retagged(0, 0, 0)
    else if rest[0].seqno == tag then Retagged(tag, 0, 0)
    else Retagged(rest[0].seqno, rest[0].seqno, rest[0].timeout)
  }
}
