/** What a file operation leaves behind when it does not go through: scripts/collect/daily_common.py. */
module Files {
  /** A backup file: complete, or cut short by a kill or a failed copy. */
  datatype Backup<T> = Complete(content: T) | CutShort

  /** A write may fail before the file is replaced, or after that, when the new file cannot be hashed. */
  datatype Write = Succeeds | FailsBefore | FailsAfter
}
