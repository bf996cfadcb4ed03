/** NotificationService: synchronous send, asynchronous send and batch send
    over a registry. Scheduling is abstracted away; only what each future
    completes with is kept, plus whether the executor still accepts tasks. */
module Service {
  import opened Wrappers
  import opened Results
  import opened Domain
  import opened Registry

  datatype NotificationService = NotificationService(registry: NotifierRegistry, accepting: bool)

  /** A CompletableFuture once it has completed. */
  datatype Future<T> = Completed(value: T) | CompletedExceptionally

  function New(registry: NotifierRegistry): (s: NotificationService)
    ensures s.registry == registry && s.accepting
  {
    NotificationService(registry, true)
  }

  /** `executor.shutdown()`: later submissions are rejected. */
  function Shutdown(s: NotificationService): (s': NotificationService)
    ensures s'.registry == s.registry && !s'.accepting
  {
    s.(accepting := false)
  }

  /** `send`: resolve the notifier and delegate; a missing notifier is null
      and dereferencing it throws. Runs on the caller, without the executor. */
  function Send(s: NotificationService, n: Notification): (r: Outcome<NotificationResult>)
    ensures n.GetTag() !in s.registry ==> r.Crash?
    ensures n.GetTag() in s.registry ==> r == Invoke(s.registry[n.GetTag()], n)
  {
    match Get(s.registry, n)
    case None => Crash
    case Some(h) => Invoke(h, n)
  }

  /** `sendAsync`: a task submitted to a shut-down executor is rejected on the
      caller's thread; otherwise the future completes with send's result, or
      exceptionally when send throws. */
  function SendAsync(s: NotificationService, n: Notification): (r: Outcome<Future<NotificationResult>>)
    ensures r.Crash? <==> !s.accepting
    ensures r.Ok? ==> (r.value.Completed? <==> Send(s, n).Ok?)
    ensures r.Ok? && r.value.Completed? ==> r.value.value == Send(s, n).value
  {
    if !s.accepting then Crash
    else match Send(s, n)
      case Ok(result) => Ok(Completed(result))
      case Crash => Ok(CompletedExceptionally)
  }

  /** `allOf(futures).thenApply(v -> futures.map(join))`: all-or-nothing, and
      positional when it succeeds. */
  function AllOf<T>(futures: seq<Future<T>>): (r: Future<seq<T>>)
    ensures r.Completed? <==> forall i :: 0 <= i < |futures| ==> futures[i].Completed?
    ensures r.Completed? ==>
      |r.value| == |futures| && forall i :: 0 <= i < |futures| ==> r.value[i] == futures[i].value
    decreases |futures|
  {
    if |futures| == 0 then Completed([])
    else
      match (futures[0], AllOf(futures[1..]))
      case (Completed(v), Completed(vs)) => Completed([v] + vs)
      case _ => CompletedExceptionally
  }

  /** `sendBatchAsync`: one sendAsync per element, in order, then AllOf. */
  method SendBatchAsync(s: NotificationService, ns: seq<Notification>)
    returns (r: Outcome<Future<seq<NotificationResult>>>)
    ensures r.Crash? <==> !s.accepting && |ns| > 0
    ensures r.Ok? ==> (r.value.Completed? <==> forall i :: 0 <= i < |ns| ==> Send(s, ns[i]).Ok?)
    ensures r.Ok? && r.value.Completed? ==>
      |r.value.value| == |ns| && forall i :: 0 <= i < |ns| ==> r.value.value[i] == Send(s, ns[i]).value
  {
    var futures: seq<Future<NotificationResult>> := [];
    var i := 0;
    while i < |ns|
      invariant 0 <= i <= |ns| && |futures| == i
      invariant i > 0 ==> s.accepting
      invariant forall j :: 0 <= j < i ==> SendAsync(s, ns[j]) == Ok(futures[j])
    {
      var submitted := SendAsync(s, ns[i]);
      if submitted.Crash? {
        return Crash;
      }
      futures := futures + [submitted.value];
      i := i + 1;
    }
    r := Ok(AllOf(futures));
  }

  /** Synchronous send does not use the executor, so it behaves the same
      after shutdown. */
  lemma SendAfterShutdown(s: NotificationService, n: Notification)
    ensures Send(Shutdown(s), n) == Send(s, n)
  {
  }

  /** An empty batch completes with the empty list, even after shutdown. */
  method EmptyBatch(s: NotificationService) returns (r: Outcome<Future<seq<NotificationResult>>>)
    ensures r == Ok(Completed([]))
  {
    r := SendBatchAsync(s, []);
  }
}
