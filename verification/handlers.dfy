/**
 * What one request does to the sink, as a value: the points stored, the
 * number of write attempts made, and the response. The measurement routes
 * await each write in turn inside one `try`, so the first failed write
 * skips the remaining ones and turns the response into a 500; points
 * stored before it stay stored.
 */
module Handlers {
  import opened JsValue
  import opened Http
  import opened Influx

  datatype Run = Run(written: seq<Point>, attempts: nat, resp: Response)

  /** A request that ends before any write. */
  function NoWrites(resp: Response): (r: Run)
    ensures r.written == [] && r.attempts == 0 && r.resp == resp
  {
    Run([], 0, resp)
  }

  /** Writing `plan` one point after another from attempt number `start`,
      aborting at the first failure; `success` is sent when every write went
      through. */
  function SequentialRun(plan: seq<Point>, failing: set<nat>, start: nat, success: Response): (r: Run)
    requires success.SendJson?
    ensures r.written <= plan
    ensures r.resp == success <==> r.written == plan
    ensures r.resp != success ==> r.resp == SendError(500, STORE_FAILED) && start + |r.written| in failing
    ensures r.attempts == if r.written == plan then |plan| else |r.written| + 1
    ensures forall a :: start <= a < start + |r.written| ==> a !in failing
  {
    var n := Committed(start, failing, plan);
    Run(plan[..n], Attempted(n, plan), if n == |plan| then success else SendError(500, STORE_FAILED))
  }

  /** When no attempt fails, every planned point is stored in order and the
      success response is sent; when the first attempt fails, nothing is. */
  lemma SequentialRunExtremes(plan: seq<Point>, failing: set<nat>, start: nat, success: Response)
    requires success.SendJson?
    ensures (forall a :: start <= a < start + |plan| ==> a !in failing) ==>
      SequentialRun(plan, failing, start, success) == Run(plan, |plan|, success)
    ensures plan != [] && start in failing ==>
      SequentialRun(plan, failing, start, success) == Run([], 1, SendError(500, STORE_FAILED))
  {
  }
}
