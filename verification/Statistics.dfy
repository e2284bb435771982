/** The statistics database's call intervals and top-ten lists, updated in place. */
module Statistics {
  import opened CallStats
  import opened TopTen

  datatype BufferTransferStats = BufferTransferStats(
    size: nat, address: nat, contextId: nat, commandQueueId: nat, startTime: nat, duration: nat)

  datatype KernelExecutionStats = KernelExecutionStats(
    kernelInstanceAddress: nat, kernelName: string, contextId: nat, commandQueueId: nat, deviceName: string,
    startTime: nat, duration: nat, globalWorkSize: string, localWorkSize: string)

  function TransferDuration(x: BufferTransferStats): nat { x.duration }

  function ExecutionDuration(x: KernelExecutionStats): nat { x.duration }

  class VPStatisticsDatabase {
    var callCount: map<Key, Calls>
    var numMigrateMemCalls: nat
    var topHostReads: seq<BufferTransferStats>
    var topHostWrites: seq<BufferTransferStats>
    var topKernelExecutions: seq<KernelExecutionStats>

    // Everything that was ever logged.
    ghost var callLog: seq<(Key, Call)>
    ghost var hostReads: seq<BufferTransferStats>
    ghost var hostWrites: seq<BufferTransferStats>
    ghost var kernelExecutions: seq<KernelExecutionStats>

    ghost predicate Valid()
      reads this
    {
      && callCount == LogRun(callLog)
      && topHostReads == Online(hostReads, TransferDuration)
      && topHostWrites == Online(hostWrites, TransferDuration)
      && topKernelExecutions == Online(kernelExecutions, ExecutionDuration)
    }

    constructor ()
      ensures Valid() && callLog == [] && hostReads == [] && hostWrites == [] && kernelExecutions == []
    {
      callCount, numMigrateMemCalls := map[], 0;
      topHostReads, topHostWrites, topKernelExecutions := [], [], [];
      callLog, hostReads, hostWrites, kernelExecutions := [], [], [], [];
    }

    method LogFunctionCallStart(name: string, threadId: nat, timestamp: real)
      requires Valid()
      modifies this`callCount, this`numMigrateMemCalls, this`callLog
      ensures Valid() && callLog == old(callLog) + [((name, threadId), Start(timestamp))]
      ensures numMigrateMemCalls == old(numMigrateMemCalls) + if name == "clEnqueueMigrateMemObjects" then 1 else 0
    {
      hide Online;
      var key := (name, threadId);
      callLog := callLog + [(key, Start(timestamp))];
      assert callLog[..|callLog| - 1] == old(callLog);
      var value := (timestamp, 0.0);
      if key !in callCount {
        var newVector := [value];
        assert newVector == StartCall([], timestamp);
        callCount := callCount[key := newVector];
      } else {
        callCount := callCount[key := callCount[key] + [value]];
      }
      if name == "clEnqueueMigrateMemObjects" {
        numMigrateMemCalls := numMigrateMemCalls + 1;
      }
    }

    /** Look back for the last call without an end; the list is created if the key is new. */
    method LogFunctionCallEnd(name: string, threadId: nat, timestamp: real)
      requires Valid()
      modifies this`callCount, this`callLog
      ensures Valid() && callLog == old(callLog) + [((name, threadId), Finish(timestamp))]
    {
      hide Online;
      var key := (name, threadId);
      callLog := callLog + [(key, Finish(timestamp))];
      assert callLog[..|callLog| - 1] == old(callLog);
      var list := CallsOf(callCount, key);
      callCount := callCount[key := list];
      var i := |list|;
      while i > 0
        invariant 0 <= i <= |list| && callCount == old(callCount)[key := list]
        invariant LastOpen(list, |list|) == LastOpen(list, i)
      {
        i := i - 1;
        if list[i].1 == 0.0 {
          callCount := callCount[key := list[i := (list[i].0, timestamp)]];
          return;
        }
      }
    }

    method AddTopHostRead(transfer: BufferTransferStats)
      requires Valid()
      modifies this`topHostReads, this`hostReads
      ensures Valid() && hostReads == old(hostReads) + [transfer]
    {
      hide Insert, LogRun;
      hostReads := hostReads + [transfer];
      assert hostReads[..|hostReads| - 1] == old(hostReads);
      topHostReads := InsertInPlace(topHostReads, transfer, TransferDuration);
    }

    method AddTopHostWrite(transfer: BufferTransferStats)
      requires Valid()
      modifies this`topHostWrites, this`hostWrites
      ensures Valid() && hostWrites == old(hostWrites) + [transfer]
    {
      hide Insert, LogRun;
      hostWrites := hostWrites + [transfer];
      assert hostWrites[..|hostWrites| - 1] == old(hostWrites);
      topHostWrites := InsertInPlace(topHostWrites, transfer, TransferDuration);
    }

    method AddTopKernelExecution(exec: KernelExecutionStats)
      requires Valid()
      modifies this`topKernelExecutions, this`kernelExecutions
      ensures Valid() && kernelExecutions == old(kernelExecutions) + [exec]
    {
      hide Insert, LogRun;
      kernelExecutions := kernelExecutions + [exec];
      assert kernelExecutions[..|kernelExecutions| - 1] == old(kernelExecutions);
      topKernelExecutions := InsertInPlace(topKernelExecutions, exec, ExecutionDuration);
    }

    /** The slowest of what was logged, for any stable descending sort of it. */
    lemma TopListsAreSortedPrefixes(reads': seq<nat>, writes: seq<nat>, execs: seq<nat>)
      requires Valid()
      requires StableSort(hostReads, reads', TransferDuration)
      requires StableSort(hostWrites, writes, TransferDuration)
      requires StableSort(kernelExecutions, execs, ExecutionDuration)
      ensures topHostReads == Pick(hostReads, reads', Min(10, |hostReads|))
      ensures topHostWrites == Pick(hostWrites, writes, Min(10, |hostWrites|))
      ensures topKernelExecutions == Pick(kernelExecutions, execs, Min(10, |kernelExecutions|))
    {
      OnlineIsSortedPrefix(hostReads, reads', TransferDuration);
      OnlineIsSortedPrefix(hostWrites, writes, TransferDuration);
      OnlineIsSortedPrefix(kernelExecutions, execs, ExecutionDuration);
    }
  }
}
