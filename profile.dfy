/** A birth-date profile the user keeps. */
module Profiles {
  import opened Dates

  /** A 128-bit UUID, kept as an opaque number. */
  type Uuid = x: nat | x < 0x1_0000_0000_0000_0000_0000_0000_0000_0000

  /**
   * Identity is `id`. The Swift initialiser draws a fresh `UUID()` and the
   * current time as defaults; here both are supplied by the caller.
   */
  datatype Profile = Profile(id: Uuid, name: string, birthDate: Date, createdAt: Date)
}
