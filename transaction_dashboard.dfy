/**
 * The transaction history (components/features/TransactionDashboard.tsx): the
 * status and batch filters and the counters above the list.
 */
module TransactionDashboard {
  import opened Types
  import opened Seqs

  /** The status buttons: all, pending, completed, failed. There is no button for processing. */
  datatype StatusFilter = AllStatuses | PendingOnly | CompletedOnly | FailedOnly

  /** The status a filter button other than "all" asks for. */
  function FilterStatus(filter: StatusFilter): TxStatus
    requires filter != AllStatuses
  {
    match filter
    case PendingOnly => Pending
    case CompletedOnly => Completed
    case FailedOnly => Failed
  }

  /** `e.target.value || null`: choosing "All Batches" (the empty value) clears the selection. */
  function BatchSelection(value: string): (sel: Option<string>)
    ensures sel.None? <==> value == ""
    ensures sel.Some? ==> sel.value == value
  {
    if value == "" then None else Some(value)
  }

  /** A selection is truthy when it holds a non-empty batch id. */
  predicate BatchSelected(sel: Option<string>) {
    sel.Some? && sel.value != ""
  }

  predicate PassesStatus(tx: Transaction, filter: StatusFilter) {
    filter == AllStatuses || tx.status == FilterStatus(filter)
  }

  predicate PassesBatch(tx: Transaction, sel: Option<string>) {
    !BatchSelected(sel) || tx.batchId == sel.value
  }

  /**
   * `filteredTransactions`: the transactions that pass the status and the batch
   * test, in their original order. A `processing` transaction shows only under
   * "all".
   */
  function FilteredTransactions(txs: seq<Transaction>, filter: StatusFilter, sel: Option<string>): (r: seq<Transaction>)
    ensures IsSubsequence(r, txs)
    ensures forall tx :: tx in r <==> tx in txs && PassesStatus(tx, filter) && PassesBatch(tx, sel)
    ensures forall tx ::
              multiset(r)[tx] == if PassesStatus(tx, filter) && PassesBatch(tx, sel) then multiset(txs)[tx] else 0
    ensures filter != AllStatuses ==> forall i | 0 <= i < |r| :: r[i].status == FilterStatus(filter)
    ensures forall i | 0 <= i < |r| :: r[i].status == Processing ==> filter == AllStatuses
    ensures BatchSelected(sel) ==> forall i | 0 <= i < |r| :: r[i].batchId == sel.value
  {
    var r := Filter(txs, (tx: Transaction) => PassesStatus(tx, filter) && PassesBatch(tx, sel));
    assert forall i | 0 <= i < |r| :: r[i] in r;
    r
  }

  /** With "all" statuses and "All Batches" selected, every transaction is listed. */
  lemma ShowAllWithoutFilters(txs: seq<Transaction>)
    ensures FilteredTransactions(txs, AllStatuses, BatchSelection("")) == txs
  {
    FilterKeepsAll(txs, (tx: Transaction) => PassesStatus(tx, AllStatuses) && PassesBatch(tx, None));
  }

  /** `transactions.filter(tx => tx.status === status).length`. */
  function CountStatus(txs: seq<Transaction>, status: TxStatus): nat {
    |Filter(txs, (tx: Transaction) => tx.status == status)|
  }

  /** The four status counts add up to the number of transactions. */
  lemma {:induction false} StatusCountsPartition(txs: seq<Transaction>)
    ensures CountStatus(txs, Pending) + CountStatus(txs, Processing)
            + CountStatus(txs, Completed) + CountStatus(txs, Failed) == |txs|
    decreases |txs|
  {
    if txs != [] {
      StatusCountsPartition(txs[1..]);
    }
  }

  datatype Stats = Stats(total: nat, pending: nat, processing: nat, completed: nat, failed: nat)

  /**
   * `stats`: each counter is the number of transactions with its status, and
   * the counters partition the total, because a status takes one of four values.
   */
  function ComputeStats(txs: seq<Transaction>): (s: Stats)
    ensures s.total == |txs|
    ensures s.pending == CountStatus(txs, Pending) && s.processing == CountStatus(txs, Processing)
    ensures s.completed == CountStatus(txs, Completed) && s.failed == CountStatus(txs, Failed)
    ensures s.pending + s.processing + s.completed + s.failed == s.total
  {
    StatusCountsPartition(txs);
    Stats(|txs|, CountStatus(txs, Pending), CountStatus(txs, Processing),
          CountStatus(txs, Completed), CountStatus(txs, Failed))
  }

  /** The "Active" figure, `stats.pending + stats.processing`: the transactions not yet finished. */
  function ActiveCount(txs: seq<Transaction>): (n: nat)
    ensures n == |txs| - CountStatus(txs, Completed) - CountStatus(txs, Failed)
  {
    var s := ComputeStats(txs);
    s.pending + s.processing
  }
}
