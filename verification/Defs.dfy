/** Shallow file data, sync modes and the vocabulary of reconciliation decisions
    (src/defs.rs, src/rules/defs.rs and the enums of src/reconcile/compute.rs). */
module Defs {

  datatype Option<+T> = None | Some(value: T)

  type Name = string
  type FileMode = nat
  /** A content hash: 32 bytes in the program, one number here. */
  type HashId = int
  /** Stands for a hash that is not known; the program uses 32 zero bytes. */
  const UNKNOWN_HASH: HashId := 0

  datatype FileData =
    | Directory(mode: FileMode)
    | Regular(mode: FileMode, size: nat, mtime: int, hash: HashId)
    | Symlink(target: string)
    | Special
  {
    /** Equal but for the size of a regular file. */
    predicate Matches(that: FileData) {
      match (this, that)
      case (Directory(m1), Directory(m2)) => m1 == m2
      case (Regular(m1, _, t1, h1), Regular(m2, _, t2, h2)) => m1 == m2 && t1 == t2 && h1 == h2
      case (Symlink(t1), Symlink(t2)) => t1 == t2
      case (Special, Special) => true
      case _ => false
    }

    /** `Matches` that also ignores the modification time. */
    predicate MatchesData(that: FileData) {
      match (this, that)
      case (Directory(m1), Directory(m2)) => m1 == m2
      case (Regular(m1, _, _, h1), Regular(m2, _, _, h2)) => m1 == m2 && h1 == h2
      case (Symlink(t1), Symlink(t2)) => t1 == t2
      case (Special, Special) => true
      case _ => false
    }

    /** `MatchesData` that also ignores the mode. */
    predicate MatchesContent(that: FileData) {
      match (this, that)
      case (Directory(_), Directory(_)) => true
      case (Regular(_, _, _, h1), Regular(_, _, _, h2)) => h1 == h2
      case (Symlink(t1), Symlink(t2)) => t1 == t2
      case (Special, Special) => true
      case _ => false
    }

    predicate NewerThan(that: FileData) {
      Regular? && that.Regular? && mtime > that.mtime
    }
  }

  predicate IsDirectory(f: Option<FileData>) {
    f.Some? && f.value.Directory?
  }

  /** The two ends agree about a file: both lack it, or both have matching data. */
  predicate Agree(c: Option<FileData>, s: Option<FileData>) {
    (c.None? && s.None?) || (c.Some? && s.Some? && c.value.Matches(s.value))
  }

  datatype Setting = Off | On | Force {
    predicate IsOn() { !Off? }
    predicate IsForce() { Force? }
  }

  datatype HalfMode = HalfMode(create: Setting, update: Setting, delete: Setting)

  /** `inbound` governs changes to the client, `outbound` changes to the server. */
  datatype SyncMode = SyncMode(inbound: HalfMode, outbound: HalfMode)

  datatype Side = Client | Server

  function Rev(side: Side): Side {
    if side.Client? then Server else Client
  }

  /** The half of the mode that governs changes made to `side`. */
  function Toward(mode: SyncMode, side: Side): HalfMode {
    if side.Client? then mode.inbound else mode.outbound
  }

  datatype AncestorFate = Move | Delete

  datatype Reconciliation =
    | InSync
    | Unsync
    | Irreconcilable
    | Use(src: Side)
    | Split(renamed: Side, fate: AncestorFate)
}
