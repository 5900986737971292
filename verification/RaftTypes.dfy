/** The values the layers share: bytes and words, identifiers, entries and the way a log answers term queries. */
module RaftTypes {

  datatype Option<+T> = None | Some(value: T)

  type Id = nat // 0 is the "None" id of the protocol
  type Term = nat
  type Byte = b: int | 0 <= b < 256
  type Bytes = seq<Byte>
  type Int64 = x: int | -0x8000_0000_0000_0000 <= x < 0x8000_0000_0000_0000

  const TWO_63: nat := 0x8000_0000_0000_0000

  const NO_NODE: Id := 0
  const BOOT_TERM: Term := 1 // the term of the entries a cluster is bootstrapped with

  datatype Kind = Normal | ConfChange | ConfChangeV2

  datatype Entry = Entry(index: nat, term: Term, kind: Kind, data: seq<Byte>)

  function Min(a: int, b: int): int {
    if a > b then b else a
  }

  function Max(a: int, b: int): int {
    if a > b then a else b
  }

  /** The term of the entry at 1-based `index`; 0 at index 0 and past the end. */
  function TermAt(log: seq<Entry>, index: nat): Term {
    if 0 < index <= |log| then log[index - 1].term else 0
  }

  function LastTerm(log: seq<Entry>): Term {
    TermAt(log, |log|)
  }

  /** Terms never decrease along the log. */
  ghost predicate Ascending(log: seq<Entry>) {
    forall i, j :: 0 <= i <= j < |log| ==> log[i].term <= log[j].term
  }

  /** Entry i of the sequence carries log position base + i + 1. */
  ghost predicate IndexedFrom(ents: seq<Entry>, base: nat) {
    forall i :: 0 <= i < |ents| ==> ents[i].index == base + i + 1
  }

  /** A node's log after it accepted the first k entries of a leader's log. */
  function Merge(log: seq<Entry>, ll: seq<Entry>, k: nat): seq<Entry>
    requires k <= |ll|
  {
    if ll[..k] <= log then log else ll[..k]
  }

  /** A log ending at (index, term) is at least as up to date as `log`. */
  predicate UpToDate(index: nat, term: Term, log: seq<Entry>) {
    term > LastTerm(log) || (term == LastTerm(log) && index >= |log|)
  }
}
