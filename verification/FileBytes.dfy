/** Bytes, page geometry and the edits a regular file supports. */
module FileBytes {
  type Byte = bv8

  const PAGE_SIZE: nat := 4096

  datatype Option<+T> = None | Some(value: T)

  function Min(a: nat, b: nat): nat {
    if a < b then a else b
  }

  function Zeros(n: nat): seq<Byte> {
    seq(n, i => 0 as Byte)
  }

  /** Writes `data` at `pos`, extending the file when it runs past the end. */
  function Splice(file: seq<Byte>, pos: nat, data: seq<Byte>): seq<Byte>
    requires pos <= |file|
  {
    file[..pos] + data + if pos + |data| < |file| then file[pos + |data|..] else []
  }

  /** Cuts the file or extends it with zeros. */
  function Resize(file: seq<Byte>, size: nat): seq<Byte> {
    if size <= |file| then file[..size] else file + Zeros(size - |file|)
  }

  /** Byte by byte: the data where it was written, the file elsewhere, and nothing lost behind it. */
  lemma SplicedBytes(file: seq<Byte>, pos: nat, data: seq<Byte>)
    requires pos <= |file|
    ensures |Splice(file, pos, data)| == if pos + |data| < |file| then |file| else pos + |data|
    ensures forall i :: 0 <= i < |Splice(file, pos, data)| ==>
      Splice(file, pos, data)[i] == if pos <= i < pos + |data| then data[i - pos] else file[i]
  {
  }

  /** Byte by byte: the file as far as it goes, zeros behind it. */
  lemma ResizedBytes(file: seq<Byte>, size: nat)
    ensures |Resize(file, size)| == size
    ensures forall i :: 0 <= i < size ==> Resize(file, size)[i] == if i < |file| then file[i] else 0
  {
  }

  /** A padded page is a whole page: the file's bytes from its offset on, then zeros. */
  lemma PaddedBytes(file: seq<Byte>, index: nat)
    ensures |PaddedPage(file, index)| == PAGE_SIZE
    ensures forall at :: 0 <= at < PAGE_SIZE ==>
      PaddedPage(file, index)[at] == if index * PAGE_SIZE + at < |file| then file[index * PAGE_SIZE + at] else 0
  {
  }

  /** The zero-padded page number `index` of `file`. */
  function PaddedPage(file: seq<Byte>, index: nat): (page: seq<Byte>) {
    seq(PAGE_SIZE, at requires 0 <= at =>
      if index * PAGE_SIZE + at < |file| then file[index * PAGE_SIZE + at] else 0 as Byte)
  }
}
