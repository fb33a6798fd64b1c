/** Failure-carrying values shared by the descriptor lookups and the layout check. */
module Results {

  datatype Option<+T> = None | Some(value: T)

  /** The recoverable lookup failures and the fatal layout failure of the board layer. */
  datatype Error =
    | UnknownResource       // no entry for this logical id in this board variant's table
    | UnknownPartition      // partition id absent from the partition table
    | PartitionUnavailable  // partition declared with owner MICO_FLASH_NONE
    | LayoutViolation       // partition table breaks a bounds or disjointness rule

  datatype Result<+T> = Ok(value: T) | Err(error: Error)

  /** A check that either passes or names why it failed. */
  datatype Outcome = Pass | Fail(error: Error)
}
