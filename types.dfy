/**
 * The records the front end passes around (lib/types.ts). Dates are
 * milliseconds since the epoch, as `Date.getTime()` gives them; optional
 * fields are `Option`s.
 */
module Types {

  datatype Option<+T> = None | Some(value: T)

  /** `'transfer' | 'swap'`, the type of a template and of a transaction. */
  datatype TxType = Transfer | Swap

  /** `'pending' | 'processing' | 'completed' | 'failed'`. */
  datatype TxStatus = Pending | Processing | Completed | Failed

  type Timestamp = int

  /** One entry of `TransferConfig.recipients`; the label (`labelText`, as `label` is a Dafny keyword) is optional. */
  datatype RecipientSpec = RecipientSpec(address: string, amount: string, labelText: Option<string>)

  datatype TransferConfig = TransferConfig(token: string, recipients: seq<RecipientSpec>)

  datatype SwapConfig = SwapConfig(
    fromToken: string,
    toToken: string,
    fromChain: string,
    toChain: string,
    amount: string,
    slippageTolerance: real)

  /** `TransferConfig | SwapConfig`. */
  datatype Config = TransferCfg(transfer: TransferConfig) | SwapCfg(swap: SwapConfig)

  datatype Template = Template(
    templateId: string,
    userId: string,
    name: string,
    kind: TxType,
    config: Config,
    createdAt: Timestamp)

  datatype Transaction = Transaction(
    transactionId: string,
    userId: string,
    templateId: Option<string>,
    kind: TxType,
    status: TxStatus,
    batchId: string,
    initiatingTimestamp: Timestamp,
    completionTimestamp: Option<Timestamp>,
    txHash: Option<string>,
    errorMessage: Option<string>)

  datatype Batch = Batch(
    batchId: string,
    userId: string,
    description: string,
    creationTimestamp: Timestamp,
    totalTransactions: nat,
    completedTransactions: nat,
    failedTransactions: nat)
}
