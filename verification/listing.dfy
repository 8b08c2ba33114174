/**
 * `GET /scans`: every stored scan, newest first, each reduced to the fields
 * the listing exposes (index.js lines 141-151).
 */
module Listing {
  import opened Wrappers
  import opened ScanStore

  /**
   * One listed item. It has no field for the session id, the IP address or
   * the user agent, so the listing cannot reveal them.
   */
  datatype ScanView = ScanView(
    id: ObjectId,
    code: string,
    adId: Option<string>,
    locationId: Option<string>,
    locationName: Option<string>,
    timestamp: int)

  function Project(s: Scan): ScanView
  {
    ScanView(s.id, s.code, s.adId, s.locationId, s.locationName, s.timestamp)
  }

  /** `scans.map(...)`: the projection of each record, position by position. */
  function ProjectAll(scans: seq<Scan>): (views: seq<ScanView>)
    ensures |views| == |scans|
    ensures forall i :: 0 <= i < |scans| ==> views[i] == Project(scans[i])
  {
    if |scans| == 0 then [] else [Project(scans[0])] + ProjectAll(scans[1..])
  }

  /** Timestamps that never increase along the sequence: newest first. */
  predicate Descending(stamps: seq<int>)
  {
    forall i, j :: 0 <= i < j < |stamps| ==> stamps[i] >= stamps[j]
  }

  /** A timestamp no older than the first of a descending sequence can lead it. */
  lemma DescendingCons(h: int, t: seq<int>)
    requires Descending(t)
    requires |t| > 0 ==> h >= t[0]
    ensures Descending([h] + t)
  {
    var s := [h] + t;
    forall i, j | 0 <= i < j < |s|
      ensures s[i] >= s[j]
    {
      if i == 0 {
        assert s[j] == t[j - 1] && t[0] >= t[j - 1];
      } else {
        assert s[i] == t[i - 1] && s[j] == t[j - 1];
      }
    }
  }

  /** The records' timestamps, in order. */
  function Stamps(scans: seq<Scan>): (stamps: seq<int>)
    ensures |stamps| == |scans|
    ensures forall i :: 0 <= i < |scans| ==> stamps[i] == scans[i].timestamp
  {
    seq(|scans|, i requires 0 <= i < |scans| => scans[i].timestamp)
  }

  /** The listed items' timestamps, in order. */
  function ViewStamps(views: seq<ScanView>): (stamps: seq<int>)
    ensures |stamps| == |views|
    ensures forall i :: 0 <= i < |views| ==> stamps[i] == views[i].timestamp
  {
    seq(|views|, i requires 0 <= i < |views| => views[i].timestamp)
  }

  predicate NewestFirst(scans: seq<Scan>)
  {
    Descending(Stamps(scans))
  }

  predicate ViewsNewestFirst(views: seq<ScanView>)
  {
    Descending(ViewStamps(views))
  }

  /** Places `x` into a newest-first sequence ahead of the first older record. */
  function Insert(x: Scan, sorted: seq<Scan>): (r: seq<Scan>)
    requires NewestFirst(sorted)
    ensures NewestFirst(r)
    ensures multiset(r) == multiset(sorted) + multiset{x}
    ensures |r| == |sorted| + 1
    ensures r[0] == x || (|sorted| > 0 && r[0] == sorted[0])
  {
    if |sorted| == 0 || x.timestamp >= sorted[0].timestamp then
      assert Stamps([x] + sorted) == [x.timestamp] + Stamps(sorted);
      DescendingCons(x.timestamp, Stamps(sorted));
      [x] + sorted
    else
      var head, tail := sorted[0], sorted[1..];
      assert Stamps(tail) == Stamps(sorted)[1..];
      var rest := Insert(x, tail);
      assert sorted == [head] + tail;
      assert head.timestamp >= rest[0].timestamp by {
        if rest[0] != x {
          assert Stamps(sorted)[0] >= Stamps(sorted)[1];
        }
      }
      var r := [head] + rest;
      assert Stamps(r) == [head.timestamp] + Stamps(rest);
      DescendingCons(head.timestamp, Stamps(rest));
      r
  }

  /** `.sort({ timestamp: -1 })`: a newest-first permutation of the records. */
  function SortNewestFirst(scans: seq<Scan>): (r: seq<Scan>)
    ensures NewestFirst(r)
    ensures multiset(r) == multiset(scans)
  {
    if |scans| == 0 then []
    else
      assert scans == [scans[0]] + scans[1..];
      Insert(scans[0], SortNewestFirst(scans[1..]))
  }

  lemma ProjectAllConcat(a: seq<Scan>, b: seq<Scan>)
    ensures ProjectAll(a + b) == ProjectAll(a) + ProjectAll(b)
  {
    assert forall i :: 0 <= i < |a + b| ==> ProjectAll(a + b)[i] == (ProjectAll(a) + ProjectAll(b))[i];
  }

  /** Projecting two permutations of each other gives two permutations of each other. */
  lemma {:induction false} ProjectAllPermutation(a: seq<Scan>, b: seq<Scan>)
    requires multiset(a) == multiset(b)
    ensures multiset(ProjectAll(a)) == multiset(ProjectAll(b))
    decreases |a|
  {
    if |a| > 0 {
      var x := a[0];
      assert x in multiset(b);
      var k :| 0 <= k < |b| && b[k] == x;
      var rest := b[..k] + b[k + 1..];
      assert b == b[..k] + [x] + b[k + 1..];
      assert a == [x] + a[1..];
      assert multiset(b) == multiset(b[..k]) + multiset{x} + multiset(b[k + 1..]);
      assert multiset(rest) == multiset(b[..k]) + multiset(b[k + 1..]);
      assert multiset(a) == multiset{x} + multiset(a[1..]);
      assert multiset(a[1..]) == multiset(a) - multiset{x};
      assert multiset(rest) == multiset(b) - multiset{x};
      ProjectAllPermutation(a[1..], rest);
      ProjectAllConcat([x], a[1..]);
      ProjectAllConcat(b[..k] + [x], b[k + 1..]);
      ProjectAllConcat(b[..k], [x]);
      ProjectAllConcat(b[..k], b[k + 1..]);
    }
  }

  /**
   * The listing: one item per stored scan, newest first, and the items are
   * exactly the projections of the stored records, none lost or repeated.
   */
  function ListScans(store: seq<Scan>): (views: seq<ScanView>)
    ensures |views| == |store|
    ensures ViewsNewestFirst(views)
    ensures multiset(views) == multiset(ProjectAll(store))
  {
    var sorted := SortNewestFirst(store);
    ProjectAllPermutation(sorted, store);
    assert |sorted| == |multiset(sorted)| == |store|;
    assert ViewStamps(ProjectAll(sorted)) == Stamps(sorted);
    ProjectAll(sorted)
  }

  /** What `GET /scans` answers: the listing, or 500 "Error retrieving scans." when the read fails. */
  datatype ScansReply = Listed(items: seq<ScanView>) | RetrievalError

  /**
   * The route: a failed `Scan.find()` answers the error and nothing else;
   * otherwise every stored scan is listed once, newest first, projected.
   */
  function Scans(store: seq<Scan>, readFails: bool): (r: ScansReply)
    ensures r.RetrievalError? <==> readFails
    ensures r.Listed? ==>
      && |r.items| == |store|
      && ViewsNewestFirst(r.items)
      && multiset(r.items) == multiset(ProjectAll(store))
  {
    if readFails then RetrievalError else Listed(ListScans(store))
  }
}
