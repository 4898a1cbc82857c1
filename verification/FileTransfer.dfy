/**
 One file over the wire: the content server reads and sends it in blocks
 (content_manager.cpp:235-262), the worker receives in pieces of any size until it has as many
 bytes as were announced (worker.cpp:199-228).
 */
module FileTransfer {
  import opened Decimal
  import MirrorModel

  type Byte = c: char | c as int < 256 witness 'a'

  /** BLOCK_RAW_SIZE (constants.h:17). */
  const BLOCK: nat := 1024

  // ---- The wire ---------------------------------------------------------------------------------

  /** The blocks reach the wire in order; a send of no bytes leaves no mark. */
  function Wire(blocks: seq<seq<Byte>>): seq<Byte> {
    if blocks == [] then [] else Wire(blocks[..|blocks| - 1]) + blocks[|blocks| - 1]
  }

  /** What is sent first is on the wire first. */
  lemma {:induction false} WireInOrder(a: seq<seq<Byte>>, b: seq<seq<Byte>>)
    ensures Wire(a + b) == Wire(a) + Wire(b)
  {
    if b == [] {
      assert a + b == a;
    } else {
      assert (a + b)[..|a + b| - 1] == a + b[..|b| - 1];
      WireInOrder(a, b[..|b| - 1]);
    }
  }

  lemma WireOfOne(block: seq<Byte>)
    ensures Wire([block]) == block
  {
    assert [block][..0] == [];
  }

  /** Each byte of a block is on the wire behind those of the blocks before it. */
  lemma WireAt(blocks: seq<seq<Byte>>, k: nat, i: nat)
    requires k < |blocks| && i < |blocks[k]|
    ensures |Wire(blocks[..k])| + i < |Wire(blocks)|
    ensures Wire(blocks)[|Wire(blocks[..k])| + i] == blocks[k][i]
  {
    WireInOrder(blocks[..k], [blocks[k]]);
    WireOfOne(blocks[k]);
    WireInOrder(blocks[..k + 1], blocks[k + 1..]);
    assert blocks[..k] + [blocks[k]] == blocks[..k + 1] && blocks[..k + 1] + blocks[k + 1..] == blocks;
    hide Wire;
  }

  // ---- Sending and receiving ----------------------------------------------------------------------

  /** The end of the `k`-th read. */
  function End(file: seq<Byte>, k: nat): nat {
    if (k + 1) * BLOCK < |file| then (k + 1) * BLOCK else |file|
  }

  /** The sender's loop: one read and one send per block; the last block may be empty. */
  method SendFile(file: seq<Byte>) returns (blocks: seq<seq<Byte>>)
    ensures |blocks| == |file| / BLOCK + 1
    ensures forall k :: 0 <= k < |blocks| ==> blocks[k] == file[k * BLOCK..End(file, k)]
    ensures Wire(blocks) == file
  {
    blocks := [];
    var position := 0;
    for block := 0 to |file| / BLOCK + 1
      invariant position == if block * BLOCK < |file| then block * BLOCK else |file|
      invariant |blocks| == block && Wire(blocks) == file[..position]
      invariant forall k :: 0 <= k < block ==> blocks[k] == file[k * BLOCK..End(file, k)]
    {
      var end := if position + BLOCK < |file| then position + BLOCK else |file|;
      assert file[..end] == file[..position] + file[position..end];
      assert (blocks + [file[position..end]])[..block] == blocks;
      blocks := blocks + [file[position..end]];
      position := end;
    }
    assert file[..|file|] == file;
  }

  /**
   The receiver's loop.  Each receive gives some of what is on the wire, from 1 byte to a block,
   in whatever portions the network chose; with nothing on the wire it waits for ever, since
   the sender waits too.
   */
  method ReceiveFile(wire: seq<Byte>, maxBytes: int) returns (file: seq<Byte>, bytes: int, blocked: bool)
    ensures blocked <==> |wire| < maxBytes || wire == []
    ensures blocked ==> file == wire
    ensures !blocked ==> file <= wire && bytes == |file| && maxBytes <= bytes
    ensures !blocked && maxBytes == |wire| ==> file == wire
  {
    file, bytes, blocked := [], 0, false;
    var rest := wire;
    var first := true;
    while first || bytes < maxBytes
      invariant wire == file + rest && bytes == |file|
      invariant first ==> file == []
      invariant !first ==> wire != []
      decreases |rest|, first
    {
      if rest == [] { return file, bytes, true; }
      var read :| 1 <= read <= |rest| && read <= BLOCK;
      file := file + rest[..read];
      bytes := bytes + read;
      rest := rest[read..];
      first := false;
    }
  }

  /**
   A whole transfer.  Whatever the portions, the worker gets exactly the file, and counts its length,
   unless the file is empty: then the worker waits for a first byte for ever.
   */
  method Transfer(file: seq<Byte>) returns (received: seq<Byte>, result: MirrorModel.NetResult)
    ensures received == file
    ensures result == if file == [] then MirrorModel.Never else MirrorModel.Got(|received|)
  {
    var announced := Print(|file|);
    var blocks := SendFile(file);
    ReadPrint(|file|, "");
    assert announced + "" == announced;
    var bytes, blocked;
    received, bytes, blocked := ReceiveFile(Wire(blocks), Read(announced));
    result := if blocked then MirrorModel.Never else MirrorModel.Got(bytes);
  }
}
