/**
 The transmit buffer in front of the serial link. Command bytes are collected and
 written out in blocks; the link gets every byte handed over, in order, or the host
 counts the device as detached.
 */
module Serial {
  import opened Basics

  const TX_BUF_LEN := 1024

  // What the link answers to a write: whether it succeeded, and how many bytes it took.
  datatype Written = Written(ok: bool, xfrd: nat)

  class SerialTx {
    const txBuf: array<byte>
    var txSi: nat
    var attached: bool
    var sent: seq<byte>       // what the link took

    ghost predicate Valid()
      reads this
    {
      txBuf.Length == TX_BUF_LEN && (attached ==> txSi < TX_BUF_LEN) && txSi <= TX_BUF_LEN
    }

    // Everything handed over so far, whether on the link or still in the buffer.
    ghost function Stream(): seq<byte>
      requires Valid()
      reads this, txBuf
    {
      sent + txBuf[..txSi]
    }

    constructor ()
      ensures Valid() && fresh(txBuf) && attached && Stream() == []
    {
      txBuf := new byte[TX_BUF_LEN];
      txSi, attached, sent := 0, true, [];
    }

    // Writes the buffer out; anything short of all of it detaches the device.
    method TxFlush(w: Written) returns (ok: bool)
      requires txBuf.Length == TX_BUF_LEN && txSi <= TX_BUF_LEN
      modifies this`txSi, this`attached, this`sent
      ensures ok <==> old(txSi) == 0 || (w.ok && w.xfrd >= old(txSi))
      ensures ok ==> txSi == 0 && sent == old(sent + txBuf[..txSi]) && attached == old(attached)
      ensures !ok ==> txSi == old(txSi) && sent == old(sent) && !attached
    {
      if txSi == 0 {
        assert sent + txBuf[..0] == sent;
        return true;
      }
      if !w.ok || w.xfrd < txSi {
        attached := false;
        return false;
      }
      sent := sent + txBuf[..txSi];
      txSi := 0;
      return true;
    }

    // One byte; a full buffer is written out at once.
    method TxByte(b: byte, w: Written) returns (ok: bool)
      requires Valid() && attached
      modifies this`txSi, this`attached, this`sent, txBuf
      ensures Valid() && Stream() == old(Stream()) + [b]
      ensures ok == attached
      ensures ok <==> old(txSi) + 1 < TX_BUF_LEN || (w.ok && w.xfrd >= TX_BUF_LEN)
    {
      ghost var before := txBuf[..txSi];
      txBuf[txSi] := b;
      txSi := txSi + 1;
      assert txBuf[..txSi] == before + [b];
      Associative(sent, before, [b]);
      ok := true;
      if txSi == TX_BUF_LEN {
        ok := TxFlush(w);
        assert ok ==> sent + txBuf[..0] == sent;
      }
    }

    // A run of bytes of any length, each write of a full buffer answered in turn: the
    // stream grows by exactly the bytes, up to the one at which the link failed, if any.
    method TxAll(s: seq<byte>, ws: seq<Written>) returns (n: nat)
      requires Valid() && attached && |ws| == |s|
      modifies this`txSi, this`attached, this`sent, txBuf
      ensures Valid() && n <= |s| && Stream() == old(Stream()) + s[..n]
      ensures attached ==> n == |s|
      ensures !attached ==> n > 0 && (!ws[n - 1].ok || ws[n - 1].xfrd < TX_BUF_LEN)
    {
      n := 0;
      assert Stream() + s[..0] == Stream();
      while n < |s|
        invariant n <= |s| && Valid() && attached
        invariant Stream() == old(Stream()) + s[..n]
      {
        Associative(old(Stream()), s[..n], [s[n]]);
        assert s[..n] + [s[n]] == s[..n + 1];
        var ok := TxByte(s[n], ws[n]);
        n := n + 1;
        if !ok { return; }
      }
    }
  }
}
