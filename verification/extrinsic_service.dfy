/**
 * The extrinsic service: the public entry point that asks the extrinsic
 * operation factory for an operation graph (a wrapper with one target
 * operation), installs a completion block on the target, enqueues all of the
 * graph's operations at once, and, when the target finishes or is cancelled,
 * delivers exactly one value to the caller's completion closure.
 *
 * The graph itself (building, signing, fee queries, submission, the watch
 * subscription) belongs to the factory and the scheduler, which are not part
 * of this model: a wrapper is an opaque value that names its operations and
 * carries the result its target ends with, or none when it was cancelled.
 */
module Extrinsics {
  import opened Wrappers

  /** `BaseOperationError.parentOperationCancelled`, or any other error the graph fails with. */
  datatype OperationError = ParentOperationCancelled | GraphError(reason: string)

  /** Swift's `Result<T, Error>`. */
  datatype Result<+T> = Success(value: T) | Failure(error: OperationError)

  /** The node's fee information; its fields are carried, not interpreted. */
  datatype RuntimeDispatchInfo = RuntimeDispatchInfo(fee: string, weight: nat)

  /** The transaction hash the node returns for a submission. */
  type TransactionHash = string

  type OperationId = nat

  /**
   * `CompoundOperationWrapper`: the dependencies and the target operation,
   * and the target's `result` at the time its completion block fires.
   */
  datatype Wrapper<T> = Wrapper(dependencies: seq<OperationId>, target: OperationId, targetResult: Option<Result<T>>) {

    /** `allOperations`: the dependencies followed by the target. */
    function AllOperations(): (operations: seq<OperationId>)
      ensures |operations| == |dependencies| + 1
      ensures operations[|dependencies|] == target
      ensures operations[..|dependencies|] == dependencies
    {
      dependencies + [target]
    }
  }

  // ---------------------------------------------------------------------------
  // What the completion blocks deliver

  /** `Array(repeating: element, count: count)`. */
  function Repeating<T>(element: T, count: nat): (s: seq<T>)
    ensures |s| == count
    ensures forall i | 0 <= i < |s| :: s[i] == element
    decreases count
  {
    if count == 0 then [] else [element] + Repeating(element, count - 1)
  }

  /**
   * The completion block of single `estimateFee` and `submit`: the target's
   * result when there is one, cancellation otherwise.
   */
  function SingleCompletion<T>(result: Option<Result<T>>): (delivered: Result<T>)
    ensures result.Some? ==> delivered == result.value
    ensures result.None? ==> delivered == Failure(ParentOperationCancelled)
  {
    match result
    case Some(r) => r
    case None => Failure(ParentOperationCancelled)
  }

  /**
   * The completion block of `submitAndWatch`: success only on a successful
   * result; a failure, whatever its error, and a missing result are both
   * reported as cancellation.
   */
  function WatchCompletion<T>(result: Option<Result<T>>): (delivered: Result<T>)
    ensures delivered.Success? <==> result.Some? && result.value.Success?
    ensures delivered.Success? ==> delivered.value == result.value.value
    ensures delivered.Failure? ==> delivered.error == ParentOperationCancelled
  {
    if result.Some? && result.value.Success? then Success(result.value.value)
    else Failure(ParentOperationCancelled)
  }

  /**
   * The completion block of the indexed `estimateFee` and `submit`:
   * `extractNoCancellableResultData()` returns the list on success, and
   * throws the failure's error, or cancellation when there is no result; a
   * thrown error is fanned out to `numberOfExtrinsics` identical failures.
   */
  function IndexedCompletion<T>(result: Option<Result<seq<Result<T>>>>, numberOfExtrinsics: nat): (delivered: seq<Result<T>>)
    ensures result.Some? && result.value.Success? ==> delivered == result.value.value
    ensures result.Some? && result.value.Failure? ==>
      |delivered| == numberOfExtrinsics && forall i | 0 <= i < |delivered| :: delivered[i] == Failure(result.value.error)
    ensures result.None? ==>
      |delivered| == numberOfExtrinsics && forall i | 0 <= i < |delivered| :: delivered[i] == Failure(ParentOperationCancelled)
  {
    match result
    case Some(Success(items)) => items
    case Some(Failure(e)) => Repeating(Failure(e), numberOfExtrinsics)
    case None => Repeating(Failure(ParentOperationCancelled), numberOfExtrinsics)
  }

  // ---------------------------------------------------------------------------
  // The record of what the service did

  /** The factory method a call obtained its wrapper from. */
  datatype FactoryRequest =
    | EstimateFeeRequest
    | EstimateFeeIndexedRequest(numberOfExtrinsics: nat)
    | SubmitRequest
    | SubmitIndexedRequest(numberOfExtrinsics: nat)
    | SubmitAndWatchRequest

  /** The completion block installed on a target, by the rule it applies. */
  datatype CompletionBlock = PassResult | PassSuccessOnly | FanOutErrors(numberOfExtrinsics: nat)

  /** The one value handed to a caller's completion closure. */
  datatype Delivery =
    | FeeDelivered(fee: Result<RuntimeDispatchInfo>)
    | FeesDelivered(fees: seq<Result<RuntimeDispatchInfo>>)
    | SubmissionDelivered(submission: Result<TransactionHash>)
    | SubmissionsDelivered(submissions: seq<Result<TransactionHash>>)

  datatype Event =
    | Requested(request: FactoryRequest)
    | BlockInstalled(target: OperationId, block: CompletionBlock)
    | Enqueued(operations: seq<OperationId>)
    | Delivered(delivery: Delivery)

  datatype EventKind = RequestEvent | InstallEvent | EnqueueEvent | DeliveryEvent

  function KindOf(e: Event): EventKind {
    match e
    case Requested(_) => RequestEvent
    case BlockInstalled(_, _) => InstallEvent
    case Enqueued(_) => EnqueueEvent
    case Delivered(_) => DeliveryEvent
  }

  /** How many events of a kind a log holds. */
  function Count(log: seq<Event>, kind: EventKind): nat
    decreases |log|
  {
    if log == [] then 0 else (if KindOf(log[0]) == kind then 1 else 0) + Count(log[1..], kind)
  }

  /** Which completion block and which kind of delivery go with each factory request. */
  predicate Conforms(request: FactoryRequest, block: CompletionBlock, delivery: Delivery) {
    match request
    case EstimateFeeRequest => block == PassResult && delivery.FeeDelivered?
    case EstimateFeeIndexedRequest(n) => block == FanOutErrors(n) && delivery.FeesDelivered?
    case SubmitRequest => block == PassResult && delivery.SubmissionDelivered?
    case SubmitIndexedRequest(n) => block == FanOutErrors(n) && delivery.SubmissionsDelivered?
    case SubmitAndWatchRequest =>
      && block == PassSuccessOnly
      && delivery.SubmissionDelivered?
      && (delivery.submission.Failure? ==> delivery.submission.error == ParentOperationCancelled)
  }

  /**
   * The events of one call, in order: the factory request, the completion
   * block installed on the target, one enqueue of operations that include
   * the target, one delivery.
   */
  predicate IsCall(call: seq<Event>) {
    && |call| == 4
    && call[0].Requested? && call[1].BlockInstalled? && call[2].Enqueued? && call[3].Delivered?
    && call[1].target in call[2].operations
    && Conforms(call[0].request, call[1].block, call[3].delivery)
  }

  /** A log made of whole calls, one after the other. */
  predicate WellFormed(log: seq<Event>)
    decreases |log|
  {
    log == [] || (|log| >= 4 && IsCall(log[..4]) && WellFormed(log[4..]))
  }

  lemma {:induction false} WellFormedAppend(log: seq<Event>, call: seq<Event>)
    requires WellFormed(log) && IsCall(call)
    ensures WellFormed(log + call)
    decreases |log|
  {
    if log == [] {
      assert log + call == call;
      assert call[..4] == call && call[4..] == [];
    } else {
      assert (log + call)[..4] == log[..4];
      assert (log + call)[4..] == log[4..] + call;
      WellFormedAppend(log[4..], call);
    }
  }

  lemma {:induction false} CountAppend(a: seq<Event>, b: seq<Event>, kind: EventKind)
    ensures Count(a + b, kind) == Count(a, kind) + Count(b, kind)
    decreases |a|
  {
    if a == [] {
      assert a + b == b;
    } else {
      assert (a + b)[0] == a[0];
      assert (a + b)[1..] == a[1..] + b;
      CountAppend(a[1..], b, kind);
    }
  }

  /** One call holds one event of each kind. */
  lemma CountOfCall(call: seq<Event>)
    requires IsCall(call)
    ensures forall kind :: Count(call, kind) == 1
  {
    assert call[1..][1..][1..][1..] == [];
    forall kind
      ensures Count(call, kind) == 1
    {
      assert Count(call[1..][1..][1..], kind) == (if KindOf(call[3]) == kind then 1 else 0);
      assert Count(call[1..][1..], kind) == (if KindOf(call[2]) == kind then 1 else 0) + Count(call[1..][1..][1..], kind);
      assert Count(call[1..], kind) == (if KindOf(call[1]) == kind then 1 else 0) + Count(call[1..][1..], kind);
    }
  }

  /**
   * A well-formed log holds as many factory requests, installed blocks and
   * enqueues as deliveries: one of each per call.
   */
  lemma {:induction false} OneOfEachPerCall(log: seq<Event>)
    requires WellFormed(log)
    ensures |log| % 4 == 0
    ensures Count(log, RequestEvent) == |log| / 4
    ensures Count(log, InstallEvent) == |log| / 4
    ensures Count(log, EnqueueEvent) == |log| / 4
    ensures Count(log, DeliveryEvent) == |log| / 4
    decreases |log|
  {
    if log != [] {
      var call, rest := log[..4], log[4..];
      assert log == call + rest;
      CountOfCall(call);
      OneOfEachPerCall(rest);
      CountAppend(call, rest, RequestEvent);
      CountAppend(call, rest, InstallEvent);
      CountAppend(call, rest, EnqueueEvent);
      CountAppend(call, rest, DeliveryEvent);
    }
  }

  /**
   * The extrinsic service. `log` records, call by call, which factory method
   * was asked, the block installed on the target, the operations enqueued and
   * the value delivered to the caller.
   */
  class ExtrinsicService {
    var log: seq<Event>

    ghost predicate Valid()
      reads this
    {
      WellFormed(log)
    }

    constructor ()
      ensures Valid() && log == []
    {
      log := [];
    }

    /** Appends the events of one call, in the order the service performs them. */
    method Record(request: FactoryRequest, target: OperationId, block: CompletionBlock, operations: seq<OperationId>, delivery: Delivery)
      requires Valid()
      requires target in operations && Conforms(request, block, delivery)
      modifies this
      ensures Valid()
      ensures log == old(log) + [Requested(request), BlockInstalled(target, block), Enqueued(operations), Delivered(delivery)]
    {
      ghost var before := log;
      log := log + [Requested(request)];
      log := log + [BlockInstalled(target, block)];
      log := log + [Enqueued(operations)];
      log := log + [Delivered(delivery)];
      assert log == before + [Requested(request), BlockInstalled(target, block), Enqueued(operations), Delivered(delivery)];
      WellFormedAppend(before, [Requested(request), BlockInstalled(target, block), Enqueued(operations), Delivered(delivery)]);
    }

    /** `estimateFee(_:runningIn:completion:)`. */
    method EstimateFee(wrapper: Wrapper<RuntimeDispatchInfo>)
      requires Valid()
      modifies this
      ensures Valid()
      ensures log == old(log) + [
        Requested(EstimateFeeRequest),
        BlockInstalled(wrapper.target, PassResult),
        Enqueued(wrapper.AllOperations()),
        Delivered(FeeDelivered(SingleCompletion(wrapper.targetResult)))]
    {
      Record(EstimateFeeRequest, wrapper.target, PassResult, wrapper.AllOperations(),
        FeeDelivered(SingleCompletion(wrapper.targetResult)));
    }

    /** `estimateFee(_:runningIn:numberOfExtrinsics:completion:)`. */
    method EstimateFeeIndexed(wrapper: Wrapper<seq<Result<RuntimeDispatchInfo>>>, numberOfExtrinsics: nat)
      requires Valid()
      modifies this
      ensures Valid()
      ensures log == old(log) + [
        Requested(EstimateFeeIndexedRequest(numberOfExtrinsics)),
        BlockInstalled(wrapper.target, FanOutErrors(numberOfExtrinsics)),
        Enqueued(wrapper.AllOperations()),
        Delivered(FeesDelivered(IndexedCompletion(wrapper.targetResult, numberOfExtrinsics)))]
    {
      Record(EstimateFeeIndexedRequest(numberOfExtrinsics), wrapper.target, FanOutErrors(numberOfExtrinsics),
        wrapper.AllOperations(), FeesDelivered(IndexedCompletion(wrapper.targetResult, numberOfExtrinsics)));
    }

    /** `submit(_:signer:runningIn:completion:)`. */
    method Submit(wrapper: Wrapper<TransactionHash>)
      requires Valid()
      modifies this
      ensures Valid()
      ensures log == old(log) + [
        Requested(SubmitRequest),
        BlockInstalled(wrapper.target, PassResult),
        Enqueued(wrapper.AllOperations()),
        Delivered(SubmissionDelivered(SingleCompletion(wrapper.targetResult)))]
    {
      Record(SubmitRequest, wrapper.target, PassResult, wrapper.AllOperations(),
        SubmissionDelivered(SingleCompletion(wrapper.targetResult)));
    }

    /** `submitAndWatch(_:signer:runningIn:completion:)`. */
    method SubmitAndWatch(wrapper: Wrapper<TransactionHash>)
      requires Valid()
      modifies this
      ensures Valid()
      ensures log == old(log) + [
        Requested(SubmitAndWatchRequest),
        BlockInstalled(wrapper.target, PassSuccessOnly),
        Enqueued(wrapper.AllOperations()),
        Delivered(SubmissionDelivered(WatchCompletion(wrapper.targetResult)))]
    {
      Record(SubmitAndWatchRequest, wrapper.target, PassSuccessOnly, wrapper.AllOperations(),
        SubmissionDelivered(WatchCompletion(wrapper.targetResult)));
    }

    /** `submit(_:signer:runningIn:numberOfExtrinsics:completion:)`. */
    method SubmitIndexed(wrapper: Wrapper<seq<Result<TransactionHash>>>, numberOfExtrinsics: nat)
      requires Valid()
      modifies this
      ensures Valid()
      ensures log == old(log) + [
        Requested(SubmitIndexedRequest(numberOfExtrinsics)),
        BlockInstalled(wrapper.target, FanOutErrors(numberOfExtrinsics)),
        Enqueued(wrapper.AllOperations()),
        Delivered(SubmissionsDelivered(IndexedCompletion(wrapper.targetResult, numberOfExtrinsics)))]
    {
      Record(SubmitIndexedRequest(numberOfExtrinsics), wrapper.target, FanOutErrors(numberOfExtrinsics),
        wrapper.AllOperations(), SubmissionsDelivered(IndexedCompletion(wrapper.targetResult, numberOfExtrinsics)));
    }
  }

  // ---------------------------------------------------------------------------
  // Properties

  /** A failed submit-and-watch looks exactly like a cancelled one: the error is dropped. */
  lemma WatchDropsTheError<T>(e: OperationError)
    ensures WatchCompletion<T>(Some(Failure(e))) == WatchCompletion<T>(None)
  {
  }

  /** On every path except a successful graph, the indexed delivery has one entry per extrinsic. */
  lemma IndexedFailureHasOneEntryPerExtrinsic<T>(result: Option<Result<seq<Result<T>>>>, numberOfExtrinsics: nat)
    requires !(result.Some? && result.value.Success?)
    ensures |IndexedCompletion(result, numberOfExtrinsics)| == numberOfExtrinsics
    ensures forall i, j | 0 <= i < numberOfExtrinsics && 0 <= j < numberOfExtrinsics ::
      IndexedCompletion(result, numberOfExtrinsics)[i] == IndexedCompletion(result, numberOfExtrinsics)[j]
  {
  }

  /** In a call, a fee delivery goes with a fee-estimation request and nothing else. */
  lemma FeeDeliveriesComeFromFeeRequests(call: seq<Event>)
    requires IsCall(call)
    ensures call[3].delivery.FeeDelivered? || call[3].delivery.FeesDelivered? <==>
      call[0].request.EstimateFeeRequest? || call[0].request.EstimateFeeIndexedRequest?
  {
  }
}
