/** What a package tree holds, read from a tarball or from the registry. */
module Packages {
  import opened Bytes

  datatype Kind = File | Directory

  /** The content stands for size and digest; a directory has none. */
  datatype Entry = Entry(kind: Kind, mode: nat, content: seq<Byte>)
}
