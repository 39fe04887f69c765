/** How far a clean-up receipt says its promotion has come. */
module Receipts {
  datatype ReceiptState = Prepared | CommitIntent | CleanupRequired | CommittedClean
}
