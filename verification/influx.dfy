/**
 * The time-series sink behind `influxDB.writePoints`. A sink records the
 * points it accepted, in order; whether a write fails is decided by an
 * oracle fixed at construction: attempt number `k` (counting from 0) fails
 * exactly when `k` is in `failing`.
 */
module Influx {
  import opened JsValue

  /** One point: measurement name, tag set and field set. */
  datatype Point = Point(measurement: string, tags: map<string, Json>, fields: Json)

  class Sink {
    var points: seq<Point>
    var attempts: nat
    const failing: set<nat>

    constructor (failing: set<nat>)
      ensures points == [] && attempts == 0 && this.failing == failing
    {
      points := [];
      attempts := 0;
      this.failing := failing;
    }

    /** `writePoints([p])`: one write attempt; a rejected write stores nothing. */
    method WritePoints(p: Point) returns (ok: bool)
      modifies this
      ensures ok <==> old(attempts) !in failing
      ensures attempts == old(attempts) + 1
      ensures points == if ok then old(points) + [p] else old(points)
    {
      ok := attempts !in failing;
      if ok {
        points := points + [p];
      }
      attempts := attempts + 1;
    }
  }

  /** How many points of `plan` are stored when they are written one after
      another, starting at attempt number `start`, and the first failure ends
      the sequence: the length of the leading run of successful attempts. */
  function Committed(start: nat, failing: set<nat>, plan: seq<Point>): (n: nat)
    ensures n <= |plan|
    ensures forall a :: start <= a < start + n ==> a !in failing
    ensures n < |plan| ==> start + n in failing
    decreases |plan|
  {
    if plan == [] || start in failing then 0
    else 1 + Committed(start + 1, failing, plan[1..])
  }

  /** The number of write attempts made by that sequence: every point up to
      and including the first failing one. */
  function Attempted(n: nat, plan: seq<Point>): nat
  {
    if n < |plan| then n + 1 else |plan|
  }

  /** The points of `plan` that are stored when every one of them is
      attempted, starting at attempt number `start`, whatever happens to the
      others: point `k` lands unless attempt `start + k` fails. */
  function Landed(start: nat, failing: set<nat>, plan: seq<Point>): (landed: seq<Point>)
    ensures |landed| <= |plan|
    decreases |plan|
  {
    if plan == [] then []
    else
      var last := |plan| - 1;
      Landed(start, failing, plan[..last]) + (if start + last in failing then [] else [plan[last]])
  }

  /** The positions, in increasing order, of the points among the first `n`
      whose attempt does not fail. */
  function LandedIndices(start: nat, failing: set<nat>, n: nat): (idx: seq<nat>)
    ensures forall j :: 0 <= j < |idx| ==> idx[j] < n
    ensures forall j, j' :: 0 <= j < j' < |idx| ==> idx[j] < idx[j']
    ensures forall k :: 0 <= k < n ==> (k in idx <==> start + k !in failing)
  {
    if n == 0 then []
    else LandedIndices(start, failing, n - 1) + (if start + n - 1 in failing then [] else [n - 1])
  }

  /** Unawaited writes store exactly the points whose own attempt succeeds,
      in the order they were planned. */
  lemma {:induction false} LandedInOrder(start: nat, failing: set<nat>, plan: seq<Point>)
    ensures |Landed(start, failing, plan)| == |LandedIndices(start, failing, |plan|)|
    ensures forall j :: 0 <= j < |Landed(start, failing, plan)| ==>
      Landed(start, failing, plan)[j] == plan[LandedIndices(start, failing, |plan|)[j]]
    decreases |plan|
  {
    if plan != [] {
      var last := |plan| - 1;
      LandedInOrder(start, failing, plan[..last]);
    }
  }

  /** With no failing attempt every point lands; with every attempt failing
      none does. */
  lemma {:induction false} LandedExtremes(start: nat, failing: set<nat>, plan: seq<Point>)
    ensures (forall a :: start <= a < start + |plan| ==> a !in failing) ==> Landed(start, failing, plan) == plan
    ensures (forall a :: start <= a < start + |plan| ==> a in failing) ==> Landed(start, failing, plan) == []
    decreases |plan|
  {
    if plan != [] {
      var last := |plan| - 1;
      LandedExtremes(start, failing, plan[..last]);
      assert plan == plan[..last] + [plan[last]];
    }
  }
}
