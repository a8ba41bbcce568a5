/**
 * One scheduling pass of the transfer service: the pending queues are split
 * into at most four slices, each handed to a worker that pulls the ready
 * transfers of its queues round-robin over the VOs and starts a url-copy
 * executor for each, within the configured limit of url-copy processes.
 * Transfers on queues without a VO share are reported as failed.
 *
 * The database, the process table, the proxy lookup and the message
 * producer are foreign: their answers are parameters and the messages sent
 * are results. The executors run on a thread pool; the model records the
 * executors started, in order.
 */
module Scheduler {
  import opened Wrappers

  /** A (source SE, destination SE, VO) queue with pending transfers. */
  datatype QueueId = QueueId(sourceSe: string, destSe: string, voName: string)

  /** The fields of a ready transfer that the pass reads. */
  datatype TransferFile = TransferFile(
    jobId: string, fileId: int, sourceSe: string, destSe: string,
    userDn: string, credId: string, vo: string)

  /** One entry of the VO-keyed map of ready transfers, in the map's key order. */
  datatype VoQueue = VoQueue(vo: string, files: seq<TransferFile>)

  /** The proxy cache key: (credential id, user DN). */
  type ProxyKey = (string, string)

  function KeyOf(f: TransferFile): ProxyKey {
    (f.credId, f.userDn)
  }

  /** The "just to be sure" check: a file id and both credential fields present. */
  predicate Valid(f: TransferFile) {
    f.fileId != 0 && f.userDn != "" && f.credId != ""
  }

  // ---------------------------------------------------------------------------
  // Lists of lists: the handler's state, one list per VO

  function Lists(voQueues: seq<VoQueue>): (ls: seq<seq<TransferFile>>)
    ensures |ls| == |voQueues|
    ensures forall k :: 0 <= k < |ls| ==> ls[k] == voQueues[k].files
  {
    seq(|voQueues|, k requires 0 <= k < |voQueues| => voQueues[k].files)
  }

  /** The number of files left over all VOs. */
  function Total<T>(ls: seq<seq<T>>): nat {
    if ls == [] then 0 else |ls[0]| + Total(ls[1..])
  }

  /** No file is left exactly when every VO's list is empty. */
  lemma {:induction false} TotalZero<T>(ls: seq<seq<T>>)
    ensures Total(ls) == 0 <==> forall k :: 0 <= k < |ls| ==> ls[k] == []
    decreases |ls|
  {
    if ls != [] {
      TotalZero(ls[1..]);
      assert forall k :: 1 <= k < |ls| ==> ls[k] == ls[1..][k - 1];
    }
  }

  /** Some VO has a file when any is left. */
  lemma NonEmptyAt<T>(ls: seq<seq<T>>) returns (w: nat)
    requires Total(ls) > 0
    ensures w < |ls| && ls[w] != []
  {
    TotalZero(ls);
    w :| w < |ls| && ls[w] != [];
  }

  /** All files, VO after VO. */
  function Flatten<T>(ls: seq<seq<T>>): (s: seq<T>)
    ensures |s| == Total(ls)
  {
    if ls == [] then [] else ls[0] + Flatten(ls[1..])
  }

  lemma {:induction false} FlattenSnoc<T>(ls: seq<seq<T>>, l: seq<T>)
    ensures Flatten(ls + [l]) == Flatten(ls) + l
    decreases |ls|
  {
    if ls == [] {
      assert ls + [l] == [l];
    } else {
      assert (ls + [l])[1..] == ls[1..] + [l];
      FlattenSnoc(ls[1..], l);
    }
  }

  /** The handler state after the head of VO k was handed out. */
  function PopAt<T>(ls: seq<seq<T>>, k: nat): seq<seq<T>>
    requires k < |ls| && ls[k] != []
  {
    ls[k := ls[k][1..]]
  }

  /** Handing out one file lowers the total by one. */
  lemma {:induction false} PopAtTotal<T>(ls: seq<seq<T>>, k: nat)
    requires k < |ls| && ls[k] != []
    ensures Total(PopAt(ls, k)) == Total(ls) - 1
    decreases |ls|
  {
    var p := PopAt(ls, k);
    if k == 0 {
      assert p[1..] == ls[1..];
      assert ls[0] == [ls[0][0]] + ls[0][1..];
    } else {
      assert p[1..] == PopAt(ls[1..], k - 1);
      PopAtTotal(ls[1..], k - 1);
    }
  }

  // ---------------------------------------------------------------------------
  // The round-robin order

  /** One sweep from VO j on: the head of every non-empty VO, in order, and what is left. */
  function SweepFrom<T>(ls: seq<seq<T>>, j: nat): (r: (seq<T>, seq<seq<T>>))
    requires j <= |ls|
    ensures |r.1| == |ls|
    ensures Total(r.1) + |r.0| == Total(ls)
    decreases |ls| - j
  {
    if j == |ls| then ([], ls)
    else if ls[j] == [] then SweepFrom(ls, j + 1)
    else
      PopAtTotal(ls, j);
      var r := SweepFrom(PopAt(ls, j), j + 1);
      ([ls[j][0]] + r.0, r.1)
  }

  /** A sweep over a VO that has a file takes at least one. */
  lemma {:induction false} SweepFromTakes<T>(ls: seq<seq<T>>, j: nat, k: nat)
    requires j <= k < |ls| && ls[k] != []
    ensures |SweepFrom(ls, j).0| > 0
    decreases |ls| - j
  {
    if ls[j] == [] {
      SweepFromTakes(ls, j + 1, k);
    }
  }

  /** A sweep over a handler that has files left takes at least one. */
  lemma SweepTakes<T>(ls: seq<seq<T>>)
    requires Total(ls) > 0
    ensures Total(SweepFrom(ls, 0).1) < Total(ls)
  {
    TotalZero(ls);
    var k :| 0 <= k < |ls| && ls[k] != [];
    SweepFromTakes(ls, 0, k);
  }

  /** The order in which an undisturbed handler gives out its files: sweep after sweep. */
  function RoundRobin<T>(ls: seq<seq<T>>): (s: seq<T>)
    decreases Total(ls)
  {
    if Total(ls) == 0 then []
    else
      SweepTakes(ls);
      var r := SweepFrom(ls, 0);
      r.0 + RoundRobin(r.1)
  }

  /** The rest of the round-robin order from VO j of the current sweep on. */
  function RoundRobinFrom<T>(ls: seq<seq<T>>, j: nat): seq<T>
    requires j <= |ls|
  {
    var r := SweepFrom(ls, j);
    r.0 + RoundRobin(r.1)
  }

  lemma {:induction false} SweepOfEmpty<T>(ls: seq<seq<T>>, j: nat)
    requires j <= |ls|
    requires forall k :: 0 <= k < |ls| ==> ls[k] == []
    ensures SweepFrom(ls, j) == ([], ls)
    decreases |ls| - j
  {
    if j < |ls| {
      SweepOfEmpty(ls, j + 1);
    }
  }

  lemma RoundRobinFromStart<T>(ls: seq<seq<T>>)
    ensures RoundRobinFrom(ls, 0) == RoundRobin(ls)
  {
    if Total(ls) == 0 {
      TotalZero(ls);
      SweepOfEmpty(ls, 0);
    }
  }

  /** Every file of the handler appears in the round-robin order exactly as often as in the handler. */
  lemma {:induction false} SweepPermutes<T>(ls: seq<seq<T>>, j: nat)
    requires j <= |ls|
    ensures multiset(SweepFrom(ls, j).0) + multiset(Flatten(SweepFrom(ls, j).1)) == multiset(Flatten(ls))
    decreases |ls| - j
  {
    if j < |ls| && ls[j] != [] {
      var r := SweepFrom(PopAt(ls, j), j + 1);
      assert SweepFrom(ls, j) == ([ls[j][0]] + r.0, r.1);
      PopAtMultiset(ls, j);
      SweepPermutes(PopAt(ls, j), j + 1);
      assert multiset([ls[j][0]] + r.0) == multiset{ls[j][0]} + multiset(r.0);
    } else if j < |ls| {
      assert SweepFrom(ls, j) == SweepFrom(ls, j + 1);
      SweepPermutes(ls, j + 1);
    }
  }

  lemma {:induction false} PopAtMultiset<T>(ls: seq<seq<T>>, k: nat)
    requires k < |ls| && ls[k] != []
    ensures multiset(Flatten(PopAt(ls, k))) + multiset{ls[k][0]} == multiset(Flatten(ls))
    decreases |ls|
  {
    var p := PopAt(ls, k);
    if k == 0 {
      assert p[1..] == ls[1..];
      assert ls[0] == [ls[0][0]] + ls[0][1..];
    } else {
      assert p[1..] == PopAt(ls[1..], k - 1);
      PopAtMultiset(ls[1..], k - 1);
    }
  }

  /** The round-robin order is a permutation of all the handler's files. */
  lemma {:induction false} RoundRobinPermutes<T>(ls: seq<seq<T>>)
    ensures multiset(RoundRobin(ls)) == multiset(Flatten(ls))
    decreases Total(ls)
  {
    if Total(ls) == 0 {
      assert Flatten(ls) == [];
    } else {
      var r := SweepFrom(ls, 0);
      SweepTakes(ls);
      SweepPermutes(ls, 0);
      RoundRobinPermutes(r.1);
    }
  }

  // ---------------------------------------------------------------------------
  // The throttle

  /** The valid files of `s`, in order. */
  function ValidOnes(s: seq<TransferFile>): (r: seq<TransferFile>)
    ensures |r| <= |s|
  {
    if s == [] then [] else ValidOnes(s[..|s| - 1]) + (if Valid(s[|s| - 1]) then [s[|s| - 1]] else [])
  }

  lemma {:induction false} ValidOnesAppend(a: seq<TransferFile>, b: seq<TransferFile>)
    ensures ValidOnes(a + b) == ValidOnes(a) + ValidOnes(b)
    decreases |b|
  {
    if b == [] {
      assert a + b == a;
    } else {
      assert (a + b)[..|a + b| - 1] == a + b[..|b| - 1];
      ValidOnesAppend(a, b[..|b| - 1]);
    }
  }

  /**
   * How many executors a pass may start: none is refused when maxUrlCopy
   * is not positive; otherwise one is started while the process count does
   * not exceed maxUrlCopy, and the count starts at initialCount.
   */
  function Budget(maxUrlCopy: int, initialCount: int): (b: Option<nat>)
    ensures maxUrlCopy <= 0 <==> b.None?
    ensures b.Some? ==> (b.value == 0 <==> initialCount > maxUrlCopy)
    ensures b.Some? && b.value > 0 ==> initialCount + b.value - 1 == maxUrlCopy
  {
    if maxUrlCopy <= 0 then None
    else if maxUrlCopy - initialCount + 1 > 0 then Some(maxUrlCopy - initialCount + 1)
    else Some(0)
  }

  function Take<T>(s: seq<T>, b: Option<nat>): (r: seq<T>)
    ensures b.None? ==> r == s
    ensures b.Some? ==> |r| == if |s| <= b.value then |s| else b.value
    ensures r == s[..|r|]
  {
    if b.None? || |s| <= b.value then s else s[..b.value]
  }

  // ---------------------------------------------------------------------------
  // executeUrlcopy's split

  /** split_11, split_21, split_12 and split_22: halves of the halves, by integer division. */
  function Slices(q: seq<QueueId>): (r: (seq<QueueId>, seq<QueueId>, seq<QueueId>, seq<QueueId>))
    ensures r.0 + r.1 + r.2 + r.3 == q
    ensures |r.0| == |q| / 2 / 2 && |r.1| == |q| / 2 - |q| / 2 / 2
    ensures |r.2| == (|q| - |q| / 2) / 2 && |r.3| == |q| - |q| / 2 - (|q| - |q| / 2) / 2
  {
    var h1 := |q| / 2;
    var split1, split2 := q[..h1], q[h1..];
    var h2 := |split1| / 2;
    var h3 := |split2| / 2;
    assert split1[..h2] + split1[h2..] + split2[..h3] + split2[h3..] == q;
    (split1[..h2], split1[h2..], split2[..h3], split2[h3..])
  }

  /** The lists getFiles runs on in one pass: none, the single queue, or the non-empty slices. */
  function DispatchedSlices(queues: seq<QueueId>): (r: seq<seq<QueueId>>)
    ensures queues == [] ==> r == []
    ensures |queues| == 1 ==> r == [queues]
    ensures forall i :: 0 <= i < |r| ==> r[i] != []
    ensures |r| <= 4
  {
    if queues == [] then []
    else if |queues| == 1 then [queues]
    else
      var s := Slices(queues);
      KeepIf(s.0) + KeepIf(s.1) + KeepIf(s.2) + KeepIf(s.3)
  }

  /** The dispatched slices, in order, are the queues: every queue goes to exactly one worker. */
  lemma DispatchedSlicesPartition(queues: seq<QueueId>)
    ensures Flatten(DispatchedSlices(queues)) == queues
  {
    if |queues| >= 2 {
      var s := Slices(queues);
      FlattenKeepIf(s.0);
      FlattenKeepIf(s.1);
      FlattenKeepIf(s.2);
      FlattenKeepIf(s.3);
      FlattenAppend(KeepIf(s.0), KeepIf(s.1));
      FlattenAppend(KeepIf(s.0) + KeepIf(s.1), KeepIf(s.2));
      FlattenAppend(KeepIf(s.0) + KeepIf(s.1) + KeepIf(s.2), KeepIf(s.3));
    } else if |queues| == 1 {
      assert Flatten([queues]) == queues + Flatten([queues][1..]);
    }
  }

  /** A slice is handed to a worker only when it is not empty. */
  function KeepIf<T>(l: seq<T>): seq<seq<T>> {
    if l != [] then [l] else []
  }

  lemma FlattenKeepIf<T>(l: seq<T>)
    ensures Flatten(KeepIf(l)) == l
  {
    if l != [] {
      assert Flatten([l]) == l + Flatten([l][1..]);
    }
  }

  lemma {:induction false} FlattenAppend<T>(a: seq<seq<T>>, b: seq<seq<T>>)
    ensures Flatten(a + b) == Flatten(a) + Flatten(b)
    decreases |a|
  {
    if a == [] {
      assert a + b == b;
    } else {
      assert (a + b)[1..] == a[1..] + b;
      FlattenAppend(a[1..], b);
    }
  }

  /** With two or three queues split_11 is empty; with four or more queues all four slices get a worker. */
  lemma SliceCounts(queues: seq<QueueId>)
    ensures 2 <= |queues| <= 3 ==> Slices(queues).0 == [] && |DispatchedSlices(queues)| == |queues|
    ensures |queues| >= 4 ==> |DispatchedSlices(queues)| == 4
  {
  }

  // ---------------------------------------------------------------------------
  // failUnschedulable

  /** A transfer status message as sent to the message producer (its timestamp is not modelled). */
  datatype StatusMessage = StatusMessage(
    transferStatus: string, processId: int, jobId: string, fileId: int,
    sourceSe: string, destSe: string, transferMessage: string, retry: bool, errcode: int)

  /** EPERM, "operation not permitted". */
  const EPERM := 1

  function FailureStatus(f: TransferFile): (m: StatusMessage)
    ensures m.transferStatus == "FAILED" && m.processId == 0 && !m.retry && m.errcode == EPERM
    ensures m.transferMessage == "No share configured for this VO"
    ensures m.jobId == f.jobId && m.fileId == f.fileId && m.sourceSe == f.sourceSe && m.destSe == f.destSe
  {
    StatusMessage("FAILED", 0, f.jobId, f.fileId, f.sourceSe, f.destSe, "No share configured for this VO", false, EPERM)
  }

  /**
   * failUnschedulable: one FAILED status per ready transfer of the
   * unschedulable queues, VO after VO and in list order within a VO.
   * `getReadyTransfers` is the database query.
   */
  method FailUnschedulable(unschedulable: seq<QueueId>, getReadyTransfers: seq<QueueId> -> seq<VoQueue>)
    returns (messages: seq<StatusMessage>)
    ensures var all := Flatten(Lists(getReadyTransfers(unschedulable)));
      |messages| == |all| && forall i :: 0 <= i < |messages| ==> messages[i] == FailureStatus(all[i])
  {
    var voQueues := getReadyTransfers(unschedulable);
    ghost var ls := Lists(voQueues);
    messages := [];
    for v := 0 to |voQueues|
      invariant var done := Flatten(ls[..v]);
        |messages| == |done| && forall i :: 0 <= i < |messages| ==> messages[i] == FailureStatus(done[i])
    {
      var transferList := voQueues[v].files;
      ghost var before := messages;
      for t := 0 to |transferList|
        invariant var done := Flatten(ls[..v]) + transferList[..t];
          |messages| == |done| && forall i :: 0 <= i < |messages| ==> messages[i] == FailureStatus(done[i])
      {
        assert transferList[..t + 1] == transferList[..t] + [transferList[t]];
        messages := messages + [FailureStatus(transferList[t])];
      }
      assert ls[..v + 1] == ls[..v] + [transferList];
      assert transferList[..|transferList|] == transferList;
      FlattenSnoc(ls[..v], transferList);
    }
    assert ls[..|voQueues|] == ls;
  }

  // ---------------------------------------------------------------------------
  // The handler and the pass

  /**
   * The transfer-file handler: the ready files of each VO, in the VO order
   * of the map it is built from; get pops the head of one VO's list.
   */
  class TransferFileHandler {
    const vos: seq<string>
    var lists: seq<seq<TransferFile>>

    constructor(voQueues: seq<VoQueue>)
      ensures |vos| == |voQueues| && forall k :: 0 <= k < |vos| ==> vos[k] == voQueues[k].vo
      ensures lists == Lists(voQueues)
    {
      vos := seq(|voQueues|, k requires 0 <= k < |voQueues| => voQueues[k].vo);
      lists := Lists(voQueues);
    }

    function Size(): nat
      reads this
    {
      Total(lists)
    }

    predicate Empty()
      reads this
      ensures Empty() <==> forall k :: 0 <= k < |lists| ==> lists[k] == []
    {
      TotalZero(lists);
      Size() == 0
    }

    /** The next file of the VO at position k, if it has one. */
    method Get(k: nat) returns (r: Option<TransferFile>)
      requires k < |lists|
      modifies this
      ensures old(lists[k]) == [] ==> r.None? && lists == old(lists)
      ensures old(lists[k]) != [] ==> r == Some(old(lists[k][0])) && lists == PopAt(old(lists), k)
    {
      if lists[k] == [] {
        r := None;
      } else {
        r := Some(lists[k][0]);
        lists := lists[k := lists[k][1..]];
      }
    }
  }

  /** A started url-copy executor: the file, its proxy and the service settings it is given. */
  datatype Executor = Executor(
    file: TransferFile, proxy: string, monitoringMessages: bool,
    infosys: string, ftsHostName: string, logDir: string, msgDir: string)

  function Files(es: seq<Executor>): (fs: seq<TransferFile>)
    ensures |fs| == |es| && forall i :: 0 <= i < |es| ==> fs[i] == es[i].file
  {
    seq(|es|, i requires 0 <= i < |es| => es[i].file)
  }

  /** The files of the queues' ready transfers, in the order an undisturbed handler gives them out. */
  function Order(voQueues: seq<VoQueue>): seq<TransferFile> {
    RoundRobin(Lists(voQueues))
  }

  class TransfersService {
    const logDir: string
    const msgDir: string
    const execPoolSize: int
    const ftsHostName: string
    const infosys: string
    const monitoringMessages: bool

    constructor(logDir: string, msgDir: string, execPoolSize: int, ftsHostName: string, infosys: string, monitoringMessages: bool)
      ensures this.logDir == logDir && this.msgDir == msgDir && this.execPoolSize == execPoolSize
      ensures this.ftsHostName == ftsHostName && this.infosys == infosys && this.monitoringMessages == monitoringMessages
    {
      this.logDir := logDir;
      this.msgDir := msgDir;
      this.execPoolSize := execPoolSize;
      this.ftsHostName := ftsHostName;
      this.infosys := infosys;
      this.monitoringMessages := monitoringMessages;
    }

    function ExecutorFor(tf: TransferFile, proxy: string): Executor {
      Executor(tf, proxy, monitoringMessages, infosys, ftsHostName, logDir, msgDir)
    }
  
    /** The executors getFiles starts for `files`, in order, each with the proxy of its credentials. */
    function Launch(files: seq<TransferFile>, getProxyFile: (string, string) -> string): (es: seq<Executor>)
      ensures |es| == |files|
    {
      if files == [] then []
      else
        var f := files[|files| - 1];
        Launch(files[..|files| - 1], getProxyFile) + [ExecutorFor(f, getProxyFile(f.userDn, f.credId))]
    }

    /**
     * getFiles. The ready transfers of `queues` are read (getReadyTransfers)
     * and handed out VO by VO, sweep after sweep. A file that fails the
     * validity check is skipped. For a valid one the proxy of its
     * (credId, userDn) is looked up once per pass (getProxyFile), and then an
     * executor is started unless maxUrlCopy is positive and the process count,
     * starting at initialCount and rising with every start, exceeds it; in
     * that case the sweep is abandoned and a new one begins. Files handed out
     * after that are dropped.
     */
    method GetFiles(queues: seq<QueueId>, getReadyTransfers: seq<QueueId> -> seq<VoQueue>,
                    maxUrlCopy: int, initialCount: int, getProxyFile: (string, string) -> string)
      returns (started: seq<Executor>, fetches: seq<ProxyKey>)
      ensures queues == [] ==> started == [] && fetches == []
      ensures queues != [] ==>
        Files(started) == Take(ValidOnes(Order(getReadyTransfers(queues))), Budget(maxUrlCopy, initialCount))
      ensures forall i :: 0 <= i < |started| ==>
        started[i] == ExecutorFor(started[i].file, getProxyFile(started[i].file.userDn, started[i].file.credId))
      ensures forall i, j :: 0 <= i < j < |fetches| ==> fetches[i] != fetches[j]
      ensures queues != [] ==> forall key ::
        key in fetches <==> exists f :: f in Flatten(Lists(getReadyTransfers(queues))) && Valid(f) && KeyOf(f) == key
    {
      started, fetches := [], [];
      if queues == [] {
        return;
      }
      var voQueues := getReadyTransfers(queues);
      if voQueues == [] {
        assert Lists(voQueues) == [];
        assert Flatten(Lists(voQueues)) == [];
        assert Order(voQueues) == [];
        return;
      }
      var urlCopyCount := initialCount;
      var tfh := new TransferFileHandler(voQueues);
      var p := Pass([], [], map[], urlCopyCount);

      ghost var h0 := tfh.lists;
      ghost var order := RoundRobin(h0);
      ghost var budget := Budget(maxUrlCopy, initialCount);
      ghost var consumed: seq<TransferFile> := [];
      ghost var tripped := false;
      assert ValidOnes([]) == [] && Launch([], getProxyFile) == [];
      assert CacheOf([], getProxyFile) == (map[], []);

      while !tfh.Empty()
        invariant PassInv(this, h0, order, budget, initialCount, getProxyFile, tfh.lists, RoundRobin(tfh.lists), consumed, tripped, p)
        decreases Total(tfh.lists)
      {
        SweepBegins(this, h0, order, budget, initialCount, getProxyFile, tfh.lists, consumed, tripped, p);
        var k, refused;
        p, consumed, tripped, k, refused := Sweep(tfh, p, maxUrlCopy, getProxyFile, h0, order, budget, initialCount, consumed, tripped);
        SweepEnds(this, h0, order, budget, initialCount, getProxyFile, tfh.lists, k, consumed, tripped, refused, p);
      }
      PassResult(this, h0, order, budget, initialCount, getProxyFile, tfh.lists, consumed, tripped, p);
      started, fetches := p.started, p.fetches;
    }

    /**
     * executeUrlcopy after the shuffle and the VO shares: `queues` and
     * `unschedulable` are what applyVoShares returned. The transfers of the
     * unschedulable queues are failed, and the schedulable queues are handed
     * to getFiles workers: none, the single queue, or one per non-empty slice.
     */
    method ExecuteUrlcopy(queues: seq<QueueId>, unschedulable: seq<QueueId>,
                          getReadyTransfers: seq<QueueId> -> seq<VoQueue>)
      returns (messages: seq<StatusMessage>, workers: seq<seq<QueueId>>)
      ensures var all := Flatten(Lists(getReadyTransfers(unschedulable)));
        |messages| == |all| && forall i :: 0 <= i < |messages| ==> messages[i] == FailureStatus(all[i])
      ensures Flatten(workers) == queues
      ensures forall i :: 0 <= i < |workers| ==> workers[i] != []
      ensures |workers| <= 4 && (|queues| <= 1 ==> |workers| == |queues|)
      ensures workers == DispatchedSlices(queues)
    {
      messages := FailUnschedulable(unschedulable, getReadyTransfers);
      if queues == [] {
        workers := [];
        return;
      } else if |queues| == 1 {
        workers := [queues];
      } else {
        var s := Slices(queues);
        workers := [];
        if s.0 != [] { workers := workers + [s.0]; }
        if s.1 != [] { workers := workers + [s.1]; }
        if s.2 != [] { workers := workers + [s.2]; }
        if s.3 != [] { workers := workers + [s.3]; }
      }
      assert workers == DispatchedSlices(queues);
      DispatchedSlicesPartition(queues);
    }

    /**
     * One sweep of the for loop over the VOs, up to its end (k reaches the VO
     * count) or its break. Here and in TakeOne the loop invariant is written
     * `SweepInv(..) == true` so that it is carried as one fact instead of
     * being split into its conjuncts, none of which the sweep itself needs.
     */
    method Sweep(tfh: TransferFileHandler, p: Pass, maxUrlCopy: int, getProxyFile: (string, string) -> string,
                 ghost h0: seq<seq<TransferFile>>, ghost order: seq<TransferFile>, ghost budget: Option<nat>,
                 ghost initialCount: int, ghost consumed: seq<TransferFile>, ghost tripped: bool)
      returns (q: Pass, ghost consumed': seq<TransferFile>, ghost tripped': bool, k: nat, refused: bool)
      requires budget == Budget(maxUrlCopy, initialCount)
      requires SweepInv(this, h0, order, budget, initialCount, getProxyFile, tfh.lists, 0, consumed, tripped, false, p) == true
      requires Total(tfh.lists) > 0
      modifies tfh
      ensures refused || k == |tfh.lists|
      ensures SweepInv(this, h0, order, budget, initialCount, getProxyFile, tfh.lists, k, consumed', tripped', refused, q) == true
      ensures Total(tfh.lists) < old(Total(tfh.lists))
    {
      q, consumed', tripped' := p, consumed, tripped;
      ghost var sweepStart := tfh.lists;
      ghost var tookAny := false;
      // some VO has a file, so the sweep takes one at the latest there
      ghost var w := NonEmptyAt(sweepStart);
      k, refused := 0, false;
      while k < |tfh.lists| && !refused
        invariant k <= |tfh.lists| == |sweepStart|
        invariant SweepInv(this, h0, order, budget, initialCount, getProxyFile, tfh.lists, k, consumed', tripped', refused, q) == true
        invariant tookAny ==> Total(tfh.lists) < Total(sweepStart)
        invariant !tookAny ==> !refused && tfh.lists == sweepStart && k <= w
      {
        ghost var took;
        q, consumed', tripped', refused, took := TakeOne(tfh, k, q, maxUrlCopy, getProxyFile, h0, order, budget, initialCount, consumed', tripped');
        if took {
          tookAny := true;
        } else if !tookAny {
          assert k != w;
        }
        k := k + 1;
      }
    }

    /** One turn of the for loop: VO k gives its next file, if it has one, and it is skipped or dispatched. */
    method TakeOne(tfh: TransferFileHandler, k: nat, p: Pass, maxUrlCopy: int, getProxyFile: (string, string) -> string,
                   ghost h0: seq<seq<TransferFile>>, ghost order: seq<TransferFile>, ghost budget: Option<nat>,
                   ghost initialCount: int, ghost consumed: seq<TransferFile>, ghost tripped: bool)
      returns (q: Pass, ghost consumed': seq<TransferFile>, ghost tripped': bool, refused: bool, ghost took: bool)
      requires budget == Budget(maxUrlCopy, initialCount)
      requires k < |tfh.lists|
      requires SweepInv(this, h0, order, budget, initialCount, getProxyFile, tfh.lists, k, consumed, tripped, false, p) == true
      modifies tfh
      ensures took <==> old(tfh.lists[k]) != []
      ensures !took ==> tfh.lists == old(tfh.lists) && !refused
      ensures took ==> |tfh.lists| == old(|tfh.lists|) && Total(tfh.lists) == old(Total(tfh.lists)) - 1
      ensures SweepInv(this, h0, order, budget, initialCount, getProxyFile, tfh.lists, k + 1, consumed', tripped', refused, q) == true
    {
      q, consumed', tripped', refused := p, consumed, tripped, false;
      ghost var before := tfh.lists;
      var opt := tfh.Get(k);
      took := opt.Some?;
      if opt.None? {
        RoundRobinSkip(before, k);
      } else {
        var tf := opt.value;
        PopAtTotal(before, k);
        if Valid(tf) {
          q, refused := Dispatch(tf, p, maxUrlCopy, getProxyFile);
        }
        StepKeepsInv(this, h0, order, budget, maxUrlCopy, initialCount, getProxyFile, before, k, consumed, tripped, p, q, refused);
        consumed', tripped' := consumed + [tf], tripped || refused;
      }
    }

    /** A valid file: its proxy looked up once, then started unless the process count is over the limit. */
    method Dispatch(tf: TransferFile, p: Pass, maxUrlCopy: int, getProxyFile: (string, string) -> string)
      returns (q: Pass, refused: bool)
      ensures Dispatched(this, p, q, tf, refused, maxUrlCopy, getProxyFile)
    {
      var key := (tf.credId, tf.userDn);
      var proxies, fetches := p.proxies, p.fetches;
      if key !in proxies {
        proxies := proxies[key := getProxyFile(tf.userDn, tf.credId)];
        fetches := fetches + [key];
      }
      if maxUrlCopy > 0 && p.urlCopyCount > maxUrlCopy {
        q, refused := Pass(p.started, fetches, proxies, p.urlCopyCount), true;
      } else {
        q, refused := Pass(p.started + [ExecutorFor(tf, proxies[key])], fetches, proxies, p.urlCopyCount + 1), false;
      }
    }
  }

  // ---------------------------------------------------------------------------
  // The loop invariant of getFiles and the steps that keep it

  /** The state getFiles carries between files: the pool, the proxy cache and the process count. */
  datatype Pass = Pass(started: seq<Executor>, fetches: seq<ProxyKey>, proxies: map<ProxyKey, string>, urlCopyCount: int)

  /** What Dispatch does with the state. */
  ghost predicate Dispatched(svc: TransfersService, p: Pass, q: Pass, tf: TransferFile, refused: bool,
                             maxUrlCopy: int, getProxyFile: (string, string) -> string) {
    var key := KeyOf(tf);
    (key in p.proxies ==> q.fetches == p.fetches && q.proxies == p.proxies) &&
    (key !in p.proxies ==> q.fetches == p.fetches + [key] && q.proxies == p.proxies[key := getProxyFile(tf.userDn, tf.credId)]) &&
    (refused <==> maxUrlCopy > 0 && p.urlCopyCount > maxUrlCopy) &&
    (refused ==> q.started == p.started && q.urlCopyCount == p.urlCopyCount) &&
    (!refused ==> key in q.proxies && q.started == p.started + [svc.ExecutorFor(tf, q.proxies[key])] &&
                  q.urlCopyCount == p.urlCopyCount + 1)
  }

  /**
   * The proxy cache after the files `handed` were handed out: the proxy of
   * the credentials of every valid one, looked up the first time they come.
   */
  ghost function CacheOf(handed: seq<TransferFile>, getProxyFile: (string, string) -> string): (map<ProxyKey, string>, seq<ProxyKey>)
    decreases |handed|
  {
    if handed == [] then (map[], [])
    else
      var c := CacheOf(handed[..|handed| - 1], getProxyFile);
      var f := handed[|handed| - 1];
      if Valid(f) && KeyOf(f) !in c.0 then (c.0[KeyOf(f) := getProxyFile(f.userDn, f.credId)], c.1 + [KeyOf(f)])
      else c
  }

  /** The cache holds getProxyFile's answer for each credential it holds, and looked each up once. */
  lemma {:induction false} CacheIsConsistent(handed: seq<TransferFile>, getProxyFile: (string, string) -> string)
    ensures var (proxies, fetches) := CacheOf(handed, getProxyFile);
      (forall key :: key in proxies <==> key in fetches) &&
      (forall i, j :: 0 <= i < j < |fetches| ==> fetches[i] != fetches[j]) &&
      (forall key :: key in proxies ==> proxies[key] == getProxyFile(key.1, key.0))
    decreases |handed|
  {
    if handed != [] {
      CacheIsConsistent(handed[..|handed| - 1], getProxyFile);
    }
  }

  /** The cache holds the credentials of exactly the valid files handed out. */
  lemma {:induction false} CacheCoversValid(handed: seq<TransferFile>, getProxyFile: (string, string) -> string)
    ensures forall key :: key in CacheOf(handed, getProxyFile).1 <==> exists f :: f in handed && Valid(f) && KeyOf(f) == key
    decreases |handed|
  {
    if handed != [] {
      var init := handed[..|handed| - 1];
      var f := handed[|handed| - 1];
      assert handed == init + [f];
      CacheIsConsistent(init, getProxyFile);
      CacheCoversValid(init, getProxyFile);
      var fetches := CacheOf(init, getProxyFile).1;
      var fetches' := CacheOf(handed, getProxyFile).1;
      forall key | key in fetches'
        ensures exists g :: g in handed && Valid(g) && KeyOf(g) == key
      {
        if key in fetches {
          var g :| g in init && Valid(g) && KeyOf(g) == key;
          assert g in handed;
        } else {
          assert f in handed && Valid(f) && KeyOf(f) == key;
        }
      }
      forall g | g in handed && Valid(g)
        ensures KeyOf(g) in fetches'
      {
        if g != f {
          assert g in init;
        }
      }
    }
  }

  /**
   * The order part of getFiles' invariant. Until the limit stops a sweep,
   * the files handed out followed by the rest of the round-robin order
   * (`rest`) are the whole order and every valid one was started; once it
   * has, the executors are those of the first `budget` valid files of that order.
   */
  ghost predicate Progress(svc: TransfersService, order: seq<TransferFile>, budget: Option<nat>, initialCount: int,
                           getProxyFile: (string, string) -> string,
                           rest: seq<TransferFile>, consumed: seq<TransferFile>, tripped: bool,
                           started: seq<Executor>, urlCopyCount: int) {
    urlCopyCount == initialCount + |started| &&
    (!tripped ==> consumed + rest == order && started == svc.Launch(ValidOnes(consumed), getProxyFile) &&
                  (budget.Some? ==> |started| <= budget.value)) &&
    (tripped ==> budget.Some? && |started| == budget.value &&
                 started == svc.Launch(Take(ValidOnes(order), budget), getProxyFile))
  }

  /**
   * The invariant of getFiles' loops: the order part, the files handed out
   * and those still in the handler make up the original handler, and the
   * proxy cache is that of the files handed out.
   */
  ghost predicate PassInv(svc: TransfersService, h0: seq<seq<TransferFile>>, order: seq<TransferFile>, budget: Option<nat>,
                          initialCount: int, getProxyFile: (string, string) -> string,
                          h: seq<seq<TransferFile>>, rest: seq<TransferFile>, consumed: seq<TransferFile>, tripped: bool, p: Pass) {
    |h| == |h0| &&
    Progress(svc, order, budget, initialCount, getProxyFile, rest, consumed, tripped, p.started, p.urlCopyCount) &&
    multiset(consumed) + multiset(Flatten(h)) == multiset(Flatten(h0)) &&
    (p.proxies, p.fetches) == CacheOf(consumed, getProxyFile)
  }

  /** The invariant of the for loop at VO k; a refusal stops the pass for good. */
  ghost predicate SweepInv(svc: TransfersService, h0: seq<seq<TransferFile>>, order: seq<TransferFile>, budget: Option<nat>,
                           initialCount: int, getProxyFile: (string, string) -> string,
                           h: seq<seq<TransferFile>>, k: nat, consumed: seq<TransferFile>, tripped: bool, refused: bool, p: Pass) {
    k <= |h| && (refused ==> tripped) &&
    PassInv(svc, h0, order, budget, initialCount, getProxyFile, h, RoundRobinFrom(h, k), consumed, tripped, p)
  }

  lemma SweepBegins(svc: TransfersService, h0: seq<seq<TransferFile>>, order: seq<TransferFile>, budget: Option<nat>,
                    initialCount: int, getProxyFile: (string, string) -> string,
                    h: seq<seq<TransferFile>>, consumed: seq<TransferFile>, tripped: bool, p: Pass)
    requires PassInv(svc, h0, order, budget, initialCount, getProxyFile, h, RoundRobin(h), consumed, tripped, p)
    ensures SweepInv(svc, h0, order, budget, initialCount, getProxyFile, h, 0, consumed, tripped, false, p)
  {
    RoundRobinFromStart(h);
  }

  lemma SweepEnds(svc: TransfersService, h0: seq<seq<TransferFile>>, order: seq<TransferFile>, budget: Option<nat>,
                  initialCount: int, getProxyFile: (string, string) -> string,
                  h: seq<seq<TransferFile>>, k: nat, consumed: seq<TransferFile>, tripped: bool, refused: bool, p: Pass)
    requires refused || k == |h|
    requires SweepInv(svc, h0, order, budget, initialCount, getProxyFile, h, k, consumed, tripped, refused, p)
    ensures PassInv(svc, h0, order, budget, initialCount, getProxyFile, h, RoundRobin(h), consumed, tripped, p)
  {
    if !refused {
      assert RoundRobinFrom(h, k) == RoundRobin(h);
    } else {
      PassInvAnyRest(svc, h0, order, budget, initialCount, getProxyFile, h, RoundRobinFrom(h, k), RoundRobin(h), consumed, tripped, p);
    }
  }

  lemma PassInvAnyRest(svc: TransfersService, h0: seq<seq<TransferFile>>, order: seq<TransferFile>, budget: Option<nat>,
                       initialCount: int, getProxyFile: (string, string) -> string,
                       h: seq<seq<TransferFile>>, rest: seq<TransferFile>, rest': seq<TransferFile>,
                       consumed: seq<TransferFile>, tripped: bool, p: Pass)
    requires tripped
    requires PassInv(svc, h0, order, budget, initialCount, getProxyFile, h, rest, consumed, tripped, p)
    ensures PassInv(svc, h0, order, budget, initialCount, getProxyFile, h, rest', consumed, tripped, p)
  {
  }

  /** Handing out the head of VO k, skipping it or dispatching it, keeps the invariant. */
  lemma StepKeepsInv(svc: TransfersService, h0: seq<seq<TransferFile>>, order: seq<TransferFile>, budget: Option<nat>,
                     maxUrlCopy: int, initialCount: int, getProxyFile: (string, string) -> string,
                     h: seq<seq<TransferFile>>, k: nat, consumed: seq<TransferFile>, tripped: bool,
                     p: Pass, q: Pass, refused: bool)
    requires budget == Budget(maxUrlCopy, initialCount)
    requires k < |h| && h[k] != []
    requires PassInv(svc, h0, order, budget, initialCount, getProxyFile, h, RoundRobinFrom(h, k), consumed, tripped, p)
    requires !Valid(h[k][0]) ==> q == p && !refused
    requires Valid(h[k][0]) ==> Dispatched(svc, p, q, h[k][0], refused, maxUrlCopy, getProxyFile)
    ensures PassInv(svc, h0, order, budget, initialCount, getProxyFile,
                    PopAt(h, k), RoundRobinFrom(PopAt(h, k), k + 1), consumed + [h[k][0]], tripped || refused, q)
  {
    var tf := h[k][0];
    PopAtMultiset(h, k);
    StepCache(svc, consumed, tf, p, q, refused, maxUrlCopy, getProxyFile);
    ProgressStep(svc, order, budget, maxUrlCopy, initialCount, getProxyFile, h, k, consumed, tripped,
                 p.started, p.urlCopyCount, q.started, q.urlCopyCount, refused);
  }

  /** The cache after one more file, and the proxy the executor of a started file gets. */
  lemma StepCache(svc: TransfersService, consumed: seq<TransferFile>, tf: TransferFile, p: Pass, q: Pass, refused: bool,
                  maxUrlCopy: int, getProxyFile: (string, string) -> string)
    requires (p.proxies, p.fetches) == CacheOf(consumed, getProxyFile)
    requires !Valid(tf) ==> q == p && !refused
    requires Valid(tf) ==> Dispatched(svc, p, q, tf, refused, maxUrlCopy, getProxyFile)
    ensures (q.proxies, q.fetches) == CacheOf(consumed + [tf], getProxyFile)
    ensures Valid(tf) && !refused ==> q.started == p.started + [svc.ExecutorFor(tf, getProxyFile(tf.userDn, tf.credId))]
  {
    assert (consumed + [tf])[..|consumed|] == consumed;
    if Valid(tf) && !refused && KeyOf(tf) in p.proxies {
      CacheIsConsistent(consumed, getProxyFile);
    }
  }

  /** The order part of the invariant after one file is handed out. */
  lemma ProgressStep(svc: TransfersService, order: seq<TransferFile>, budget: Option<nat>, maxUrlCopy: int, initialCount: int,
                     getProxyFile: (string, string) -> string,
                     h: seq<seq<TransferFile>>, k: nat, consumed: seq<TransferFile>, tripped: bool,
                     started: seq<Executor>, count: int, started': seq<Executor>, count': int, refused: bool)
    requires budget == Budget(maxUrlCopy, initialCount)
    requires k < |h| && h[k] != []
    requires Progress(svc, order, budget, initialCount, getProxyFile, RoundRobinFrom(h, k), consumed, tripped, started, count)
    requires !Valid(h[k][0]) ==> started' == started && count' == count && !refused
    requires Valid(h[k][0]) ==> (refused <==> maxUrlCopy > 0 && count > maxUrlCopy)
    requires Valid(h[k][0]) && refused ==> started' == started && count' == count
    requires Valid(h[k][0]) && !refused ==>
      started' == started + [svc.ExecutorFor(h[k][0], getProxyFile(h[k][0].userDn, h[k][0].credId))] && count' == count + 1
    ensures Progress(svc, order, budget, initialCount, getProxyFile, RoundRobinFrom(PopAt(h, k), k + 1), consumed + [h[k][0]],
                     tripped || refused, started', count')
  {
    var tf := h[k][0];
    if tripped {
      if Valid(tf) {
        assert refused;
      }
    } else {
      RoundRobinStep(h, k, consumed, order);
      ValidOnesSnoc(consumed, tf);
      if Valid(tf) && refused {
        TrippedTakesBudget(consumed, RoundRobinFrom(h, k), order, budget, |started|);
      } else if Valid(tf) {
        LaunchSnoc(svc, ValidOnes(consumed), tf, getProxyFile);
      }
    }
  }

  lemma ValidOnesSnoc(s: seq<TransferFile>, f: TransferFile)
    ensures Valid(f) ==> ValidOnes(s + [f]) == ValidOnes(s) + [f]
    ensures !Valid(f) ==> ValidOnes(s + [f]) == ValidOnes(s)
  {
    assert (s + [f])[..|s|] == s;
    assert ValidOnes(s) + [] == ValidOnes(s);
  }

  lemma LaunchSnoc(svc: TransfersService, files: seq<TransferFile>, f: TransferFile, getProxyFile: (string, string) -> string)
    ensures svc.Launch(files + [f], getProxyFile) == svc.Launch(files, getProxyFile) + [svc.ExecutorFor(f, getProxyFile(f.userDn, f.credId))]
  {
    assert (files + [f])[..|files|] == files;
  }

  /** Each executor Launch starts is the one for its file and that file's proxy. */
  lemma {:induction false} LaunchFacts(svc: TransfersService, files: seq<TransferFile>, getProxyFile: (string, string) -> string)
    ensures Files(svc.Launch(files, getProxyFile)) == files
    ensures forall i :: 0 <= i < |files| ==>
      svc.Launch(files, getProxyFile)[i] == svc.ExecutorFor(files[i], getProxyFile(files[i].userDn, files[i].credId))
    decreases |files|
  {
    if files != [] {
      LaunchFacts(svc, files[..|files| - 1], getProxyFile);
    }
  }

  /** At the end of the pass: the executors, the fetched proxies and their uniqueness. */
  lemma PassResult(svc: TransfersService, h0: seq<seq<TransferFile>>, order: seq<TransferFile>, budget: Option<nat>,
                   initialCount: int, getProxyFile: (string, string) -> string,
                   h: seq<seq<TransferFile>>, consumed: seq<TransferFile>, tripped: bool, p: Pass)
    requires order == RoundRobin(h0)
    requires Total(h) == 0
    requires PassInv(svc, h0, order, budget, initialCount, getProxyFile, h, RoundRobin(h), consumed, tripped, p)
    ensures Files(p.started) == Take(ValidOnes(order), budget)
    ensures forall i :: 0 <= i < |p.started| ==>
      p.started[i] == svc.ExecutorFor(p.started[i].file, getProxyFile(p.started[i].file.userDn, p.started[i].file.credId))
    ensures forall i, j :: 0 <= i < j < |p.fetches| ==> p.fetches[i] != p.fetches[j]
    ensures forall key :: key in p.fetches <==> exists f :: f in Flatten(h0) && Valid(f) && KeyOf(f) == key
  {
    RoundRobinOfEmpty(h);
    StartedAtEnd(svc, order, budget, initialCount, getProxyFile, consumed, tripped, p.started, p.urlCopyCount);
    LaunchFacts(svc, Take(ValidOnes(order), budget), getProxyFile);
    assert multiset(consumed) == multiset(Flatten(h0));
    FetchedAtEnd(h0, consumed, p.proxies, p.fetches, getProxyFile);
  }

  /** With the handler empty, the executors are those of the first `budget` valid files of the order. */
  lemma StartedAtEnd(svc: TransfersService, order: seq<TransferFile>, budget: Option<nat>, initialCount: int,
                     getProxyFile: (string, string) -> string,
                     consumed: seq<TransferFile>, tripped: bool, started: seq<Executor>, count: int)
    requires Progress(svc, order, budget, initialCount, getProxyFile, [], consumed, tripped, started, count)
    ensures started == svc.Launch(Take(ValidOnes(order), budget), getProxyFile)
  {
    if !tripped {
      assert consumed + [] == consumed;
    }
  }

  /** With every file handed out, one proxy lookup was made per credentials of a valid file, and no more. */
  lemma FetchedAtEnd(h0: seq<seq<TransferFile>>, consumed: seq<TransferFile>,
                     proxies: map<ProxyKey, string>, fetches: seq<ProxyKey>, getProxyFile: (string, string) -> string)
    requires multiset(consumed) == multiset(Flatten(h0))
    requires (proxies, fetches) == CacheOf(consumed, getProxyFile)
    ensures forall i, j :: 0 <= i < j < |fetches| ==> fetches[i] != fetches[j]
    ensures forall key :: key in fetches <==> exists f :: f in Flatten(h0) && Valid(f) && KeyOf(f) == key
  {
    CacheIsConsistent(consumed, getProxyFile);
    CacheCoversValid(consumed, getProxyFile);
    forall key
      ensures key in fetches <==> exists f :: f in Flatten(h0) && Valid(f) && KeyOf(f) == key
    {
      if key in fetches {
        var f :| f in consumed && Valid(f) && KeyOf(f) == key;
        assert f in multiset(consumed);
      }
      if exists f :: f in Flatten(h0) && Valid(f) && KeyOf(f) == key {
        var f :| f in Flatten(h0) && Valid(f) && KeyOf(f) == key;
        assert f in multiset(Flatten(h0));
      }
    }
  }

  lemma RoundRobinStep(h: seq<seq<TransferFile>>, k: nat, consumed: seq<TransferFile>, order: seq<TransferFile>)
    requires k < |h| && h[k] != []
    requires consumed + RoundRobinFrom(h, k) == order
    ensures consumed + [h[k][0]] + RoundRobinFrom(PopAt(h, k), k + 1) == order
  {
    assert RoundRobinFrom(h, k) == [h[k][0]] + RoundRobinFrom(PopAt(h, k), k + 1);
  }

  lemma RoundRobinSkip(h: seq<seq<TransferFile>>, k: nat)
    requires k < |h| && h[k] == []
    ensures RoundRobinFrom(h, k) == RoundRobinFrom(h, k + 1)
  {
  }

  lemma RoundRobinOfEmpty(h: seq<seq<TransferFile>>)
    requires Total(h) == 0
    ensures RoundRobin(h) == [] && Flatten(h) == []
  {
  }

  lemma TrippedTakesBudget(consumed: seq<TransferFile>, rest: seq<TransferFile>, order: seq<TransferFile>,
                           budget: Option<nat>, n: nat)
    requires consumed + rest == order
    requires budget.Some? && n == budget.value
    requires |ValidOnes(consumed)| == n
    ensures Take(ValidOnes(order), budget) == ValidOnes(consumed)
  {
    ValidOnesAppend(consumed, rest);
  }
}
