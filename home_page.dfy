/**
 * The session state of the home page (app/page.tsx) and its handlers. Each
 * asynchronous handler is one atomic step: the simulated two-second delay and
 * the intermediate `isLoading = true` render are not observable here. Fresh
 * identifiers (`generateId()`) and the clock (`new Date()`) are parameters.
 */
module HomePage {
  import opened Types
  import opened Seqs
  import opened JsString

  /** `'dashboard' | 'transfer' | 'swap' | 'history' | 'templates'`. */
  datatype View = DashboardView | TransferView | SwapView | HistoryView | TemplatesView

  /** The user every record is created for. */
  const UserId := "user1"

  /** A transaction as a submission creates it: pending, with no outcome recorded yet. */
  predicate IsFreshPending(tx: Transaction, kind: TxType, batchId: string, now: Timestamp) {
    && tx.userId == UserId
    && tx.templateId.None?
    && tx.kind == kind
    && tx.status == Pending
    && tx.batchId == batchId
    && tx.initiatingTimestamp == now
    && tx.completionTimestamp.None?
    && tx.txHash.None?
    && tx.errorMessage.None?
  }

  function NewPending(txId: string, kind: TxType, batchId: string, now: Timestamp): (tx: Transaction)
    ensures IsFreshPending(tx, kind, batchId, now) && tx.transactionId == txId
  {
    Transaction(txId, UserId, None, kind, Pending, batchId, now, None, None, None)
  }

  /** The counters of a batch never claim more finished transactions than it holds. */
  predicate CountersConsistent(b: Batch) {
    b.completedTransactions + b.failedTransactions <= b.totalTransactions
  }

  /** The batch a transfer submission creates: one transaction per recipient, none finished. */
  function TransferBatch(config: TransferConfig, batchId: string, now: Timestamp): (b: Batch)
    ensures b.batchId == batchId && b.userId == UserId && b.creationTimestamp == now
    ensures b.totalTransactions == |config.recipients|
    ensures b.completedTransactions == 0 && b.failedTransactions == 0
    ensures CountersConsistent(b)
  {
    var n := |config.recipients|;
    Batch(batchId, UserId, "Batch Transfer - " + NatToString(n) + " recipients", now, n, 0, 0)
  }

  /**
   * `config.recipients.map(...)`: one pending transfer per recipient, in order,
   * all in the batch `batchId`. The map generates an id and reads the clock
   * once per recipient: `txIds[i]` and `txTimes[i]` are the values its i-th
   * call got. The recipient's address and amount are not recorded on the
   * transaction.
   */
  function PendingTransfers(txIds: seq<string>, batchId: string, txTimes: seq<Timestamp>): (txs: seq<Transaction>)
    requires |txTimes| == |txIds|
    ensures |txs| == |txIds|
    ensures forall i | 0 <= i < |txs| ::
      IsFreshPending(txs[i], Transfer, batchId, txTimes[i]) && txs[i].transactionId == txIds[i]
  {
    if txIds == [] then []
    else [NewPending(txIds[0], Transfer, batchId, txTimes[0])] + PendingTransfers(txIds[1..], batchId, txTimes[1..])
  }

  /** The batch a swap submission creates: exactly one transaction, none finished. */
  function SwapBatch(config: SwapConfig, batchId: string, now: Timestamp): (b: Batch)
    ensures b.batchId == batchId && b.userId == UserId && b.creationTimestamp == now
    ensures b.totalTransactions == 1
    ensures b.completedTransactions == 0 && b.failedTransactions == 0
    ensures CountersConsistent(b)
  {
    Batch(batchId, UserId, "Swap " + config.fromToken + " to " + config.toToken, now, 1, 0, 0)
  }

  function BatchIds(batches: seq<Batch>): set<string> {
    set b | b in batches :: b.batchId
  }

  /** The transactions that belong to batch `batchId`, in order. */
  function BatchMembers(txs: seq<Transaction>, batchId: string): seq<Transaction> {
    Filter(txs, (tx: Transaction) => tx.batchId == batchId)
  }

  /**
   * When the new batch id is not used by any earlier transaction, the new
   * batch's `totalTransactions` is exactly the number of transactions that
   * belong to it after a transfer submission.
   */
  lemma TransferBatchMatchesMembers(
    config: TransferConfig, batchId: string, batchTime: Timestamp,
    txIds: seq<string>, txTimes: seq<Timestamp>, older: seq<Transaction>)
    requires |txIds| == |config.recipients| && |txTimes| == |txIds|
    requires forall i | 0 <= i < |older| :: older[i].batchId != batchId
    ensures |BatchMembers(PendingTransfers(txIds, batchId, txTimes) + older, batchId)|
            == TransferBatch(config, batchId, batchTime).totalTransactions
  {
    var created := PendingTransfers(txIds, batchId, txTimes);
    var p := (tx: Transaction) => tx.batchId == batchId;
    FilterConcat(created, older, p);
    FilterKeepsAll(created, p);
    FilterKeepsNone(older, p);
  }

  /** The same for a swap submission: its batch holds exactly its one transaction. */
  lemma SwapBatchMatchesMembers(
    config: SwapConfig, batchId: string, batchTime: Timestamp,
    txId: string, txTime: Timestamp, older: seq<Transaction>)
    requires forall i | 0 <= i < |older| :: older[i].batchId != batchId
    ensures |BatchMembers([NewPending(txId, Swap, batchId, txTime)] + older, batchId)|
            == SwapBatch(config, batchId, batchTime).totalTransactions
  {
    var p := (tx: Transaction) => tx.batchId == batchId;
    FilterConcat([NewPending(txId, Swap, batchId, txTime)], older, p);
    FilterKeepsNone(older, p);
  }

  /** The template `handleSaveTemplate` creates. */
  function NewTemplate(templateId: string, name: string, config: Config, kind: TxType, now: Timestamp): (t: Template)
    ensures t.templateId == templateId && t.userId == UserId && t.name == name
    ensures t.kind == kind && t.config == config && t.createdAt == now
  {
    Template(templateId, UserId, name, kind, config, now)
  }

  /**
   * `prev.filter(t => t.templateId !== templateId)`: exactly the templates with
   * that id go, the rest stay in order, and an absent id changes nothing.
   */
  function WithoutTemplate(templates: seq<Template>, templateId: string): (r: seq<Template>)
    ensures IsSubsequence(r, templates)
    ensures forall t :: t in r <==> t in templates && t.templateId != templateId
    ensures forall t :: multiset(r)[t] == if t.templateId != templateId then multiset(templates)[t] else 0
    ensures (forall i | 0 <= i < |templates| :: templates[i].templateId != templateId) ==> r == templates
  {
    var p := (t: Template) => t.templateId != templateId;
    // Both branches return the same filter; the first only adds the proof that
    // an absent id leaves the list unchanged.
    if forall i | 0 <= i < |templates| :: templates[i].templateId != templateId then
      FilterKeepsAll(templates, p);
      Filter(templates, p)
    else
      Filter(templates, p)
  }

  /** The form a template opens: the transfer form for a transfer template, the swap form otherwise. */
  function FormViewFor(kind: TxType): (v: View)
    ensures v == TransferView <==> kind.Transfer?
    ensures v == SwapView <==> kind.Swap?
  {
    if kind.Transfer? then TransferView else SwapView
  }

  /** `transactions.slice(0, 3)`: the three most recent transactions, or all of them if fewer. */
  function RecentActivity(transactions: seq<Transaction>): (r: seq<Transaction>)
    ensures |r| == Min(3, |transactions|)
    ensures r == transactions[..|r|]
  {
    Slice(transactions, 0, 3)
  }

  class Session {
    var activeView: View
    var templates: seq<Template>
    var transactions: seq<Transaction>
    var batches: seq<Batch>
    var isLoading: bool

    /**
     * Every batch's counters are consistent, and every transaction belongs to a
     * batch the session holds.
     */
    predicate Valid()
      reads this
    {
      && (forall i | 0 <= i < |batches| :: CountersConsistent(batches[i]))
      && (forall i | 0 <= i < |transactions| :: transactions[i].batchId in BatchIds(batches))
    }

    /** The state before the mock data is loaded: empty lists on the dashboard. */
    constructor ()
      ensures Valid()
      ensures activeView == DashboardView && !isLoading
      ensures templates == [] && transactions == [] && batches == []
    {
      activeView := DashboardView;
      templates := [];
      transactions := [];
      batches := [];
      isLoading := false;
    }

    /**
     * `handleBatchTransfer`: prepends one batch and one pending transfer per
     * recipient, then shows the history view. The templates are untouched and
     * loading is over. `batchTime` is the clock reading for the batch;
     * `txIds` and `txTimes` are the id generated and the clock read for each
     * recipient, in order. The readings are separate and need not be equal.
     */
    method HandleBatchTransfer(config: TransferConfig, batchId: string, batchTime: Timestamp,
                               txIds: seq<string>, txTimes: seq<Timestamp>)
      requires Valid()
      requires |txIds| == |config.recipients| && |txTimes| == |txIds|
      modifies this
      ensures Valid()
      ensures batches == [TransferBatch(config, batchId, batchTime)] + old(batches)
      ensures transactions == PendingTransfers(txIds, batchId, txTimes) + old(transactions)
      ensures templates == old(templates)
      ensures activeView == HistoryView && !isLoading
    {
      isLoading := true;
      var newBatch := TransferBatch(config, batchId, batchTime);
      var newTransactions := PendingTransfers(txIds, batchId, txTimes);
      batches := [newBatch] + batches;
      transactions := newTransactions + transactions;
      activeView := HistoryView;
      isLoading := false;
      assert BatchIds(batches) == {batchId} + BatchIds(old(batches));
    }

    /**
     * `handleSwap`: prepends one batch of one pending swap transaction, then
     * shows the history view. The templates are untouched and loading is over.
     * The batch and the transaction each read the clock: `batchTime` and
     * `txTime`.
     */
    method HandleSwap(config: SwapConfig, batchId: string, batchTime: Timestamp, txId: string, txTime: Timestamp)
      requires Valid()
      modifies this
      ensures Valid()
      ensures batches == [SwapBatch(config, batchId, batchTime)] + old(batches)
      ensures transactions == [NewPending(txId, Swap, batchId, txTime)] + old(transactions)
      ensures templates == old(templates)
      ensures activeView == HistoryView && !isLoading
    {
      isLoading := true;
      var newBatch := SwapBatch(config, batchId, batchTime);
      var newTransaction := NewPending(txId, Swap, batchId, txTime);
      batches := [newBatch] + batches;
      transactions := [newTransaction] + transactions;
      activeView := HistoryView;
      isLoading := false;
      assert BatchIds(batches) == {batchId} + BatchIds(old(batches));
    }

    /** `handleSaveTemplate`: prepends one template; nothing else changes. */
    method HandleSaveTemplate(name: string, config: Config, kind: TxType, templateId: string, now: Timestamp)
      requires Valid()
      modifies this
      ensures Valid()
      ensures templates == [NewTemplate(templateId, name, config, kind, now)] + old(templates)
      ensures transactions == old(transactions) && batches == old(batches)
      ensures activeView == old(activeView) && isLoading == old(isLoading)
    {
      templates := [NewTemplate(templateId, name, config, kind, now)] + templates;
    }

    /** `handleDeleteTemplate`: drops the templates with that id; nothing else changes. */
    method HandleDeleteTemplate(templateId: string)
      requires Valid()
      modifies this
      ensures Valid()
      ensures templates == WithoutTemplate(old(templates), templateId)
      ensures transactions == old(transactions) && batches == old(batches)
      ensures activeView == old(activeView) && isLoading == old(isLoading)
    {
      templates := WithoutTemplate(templates, templateId);
    }

    /** `handleUseTemplate`: opens the form for the template's type; no list changes. */
    method HandleUseTemplate(template: Template)
      requires Valid()
      modifies this
      ensures Valid()
      ensures activeView == FormViewFor(template.kind)
      ensures templates == old(templates) && transactions == old(transactions) && batches == old(batches)
      ensures isLoading == old(isLoading)
    {
      activeView := FormViewFor(template.kind);
    }

    /**
     * `handleEditTemplate`: like using it, only opens the form for the template's
     * type; the template's values are not loaded and nothing is changed.
     */
    method HandleEditTemplate(template: Template)
      requires Valid()
      modifies this
      ensures Valid()
      ensures activeView == FormViewFor(template.kind)
      ensures templates == old(templates) && transactions == old(transactions) && batches == old(batches)
      ensures isLoading == old(isLoading)
    {
      activeView := FormViewFor(template.kind);
    }

    /** A navigation button: shows the chosen view; no list changes. */
    method SelectView(view: View)
      requires Valid()
      modifies this
      ensures Valid()
      ensures activeView == view
      ensures templates == old(templates) && transactions == old(transactions) && batches == old(batches)
      ensures isLoading == old(isLoading)
    {
      activeView := view;
    }
  }
}
