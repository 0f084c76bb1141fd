/** The buffered TCP stream: a fixed put buffer that is flushed by partial sends and a
  * fixed get buffer that is refilled by partial receives.
  */
module SocketStreams {

  import opened Common

  // The peer as the stream sees it. A send takes any prefix of what it is offered, or
  // fails; a receive yields any bytes that fit, or none at end of stream or on error.
  class Channel {
    // every byte taken by send, in order, and every byte yielded by receive
    var sent: seq<char>
    var received: seq<char>
    // how many sends have failed, and how many receives have yielded nothing
    ghost var failures: nat
    ghost var ends: nat

    constructor ()
      ensures sent == [] && received == [] && failures == ends == 0
    {
      sent, received, failures, ends := [], [], 0, 0;
    }

    method Send(data: seq<char>) returns (ret: int)
      modifies this`sent, this`failures
      ensures ret <= |data|
      ensures failures == old(failures) + if ret > 0 then 0 else 1
      ensures sent == old(sent) + if ret > 0 then data[..ret] else []
    {
      var n: int :| n <= |data|;
      ret := n;
      if n > 0 {
        sent := sent + data[..n];
      } else {
        failures := failures + 1;
      }
    }

    method Receive(len: nat) returns (data: seq<char>)
      modifies this`received, this`ends
      ensures |data| <= len && received == old(received) + data
      ensures ends == old(ends) + if data == [] then 1 else 0
    {
      var bytes: seq<char> :| |bytes| <= len;
      data := bytes;
      received := received + bytes;
      if bytes == [] {
        ends := ends + 1;
      }
    }
  }

  class BaseTcpStreamBuf {
    const buf_size: nat
    const channel: Channel
    const gbuf: array<char>
    const pbuf: array<char>
    var gptr: nat
    var egptr: nat
    var pptr: nat
    // Everything written to and read from the stream so far.
    ghost var written: seq<char>
    ghost var consumed: seq<char>

    ghost predicate Valid()
      reads this
    {
      && 0 < buf_size == gbuf.Length == pbuf.Length && gbuf != pbuf
      && gptr <= egptr <= buf_size && pptr <= buf_size
    }

    /** The unbuffered view of output: sent bytes, then the put area, in order and once each. */
    ghost predicate WritesInOrder()
      requires Valid()
      reads this, channel, pbuf
    {
      channel.sent + pbuf[..pptr] == written
    }

    /** The unbuffered view of input: consumed bytes, then the get area. */
    ghost predicate ReadsInOrder()
      requires Valid()
      reads this, channel, gbuf
    {
      consumed + gbuf[gptr..egptr] == channel.received
    }

    constructor (buf_size: nat)
      requires buf_size > 0
      ensures Valid() && WritesInOrder() && ReadsInOrder()
      ensures written == [] && consumed == [] && this.buf_size == buf_size
      ensures fresh(channel) && fresh(gbuf) && fresh(pbuf)
    {
      this.buf_size := buf_size;
      channel := new Channel();
      gbuf := new char[buf_size];
      pbuf := new char[buf_size];
      gptr, egptr, pptr := 0, 0, 0;
      written, consumed := [], [];
    }

    /** Sends the put area; it succeeds if and only if no send fails. On success the area is
      * empty and nothing was lost or repeated; on failure the put area keeps everything, also what had been sent, so the order is
      * kept exactly when nothing had been sent.
      */
    method Sync() returns (ret: int)
      requires Valid()
      modifies this`pptr, channel`sent, channel`failures
      ensures Valid() && (ret == 0 || ret == -1)
      ensures channel.failures == old(channel.failures) + if ret == 0 then 0 else 1
      ensures ret == 0 ==> pptr == 0 && channel.sent == old(channel.sent + pbuf[..pptr])
      ensures ret == -1 ==> pptr == old(pptr) && exists k :: 0 <= k < pptr && channel.sent == old(channel.sent) + pbuf[..k]
      ensures old(WritesInOrder()) ==> (WritesInOrder() <==> ret == 0 || channel.sent == old(channel.sent))
    {
      var sent := 0;
      var total := pptr;
      assert pbuf[..0] == [];
      while sent < total
        invariant 0 <= sent <= total == pptr
        invariant channel.sent == old(channel.sent) + pbuf[..sent]
        invariant channel.failures == old(channel.failures)
      {
        var n := channel.Send(pbuf[sent..total]);
        if n > 0 {
          assert pbuf[..sent] + pbuf[sent..total][..n] == pbuf[..sent + n];
          sent := sent + n;
        } else {
          ResendDuplicates(old(channel.sent), pbuf[..sent], pbuf[..pptr]);
          return -1;
        }
      }
      pptr := 0;
      return 0;
    }

    /** Stores a byte in a full put area by sending the area first. */
    method Overflow(c: Option<char>) returns (ok: bool)
      requires Valid()
      modifies this`pptr, this`written, channel`sent, channel`failures, pbuf
      ensures Valid()
      ensures channel.failures == old(channel.failures) + if ok then 0 else 1
      ensures ok && c.Some? ==> pptr == 1 && written == old(written) + [c.value]
      ensures ok && c.None? ==> pptr == 0 && written == old(written)
      ensures !ok ==> written == old(written) && pptr == old(pptr)
      ensures ok && old(WritesInOrder()) ==> WritesInOrder()
    {
      var ret := Sync();
      if ret == -1 {
        return false;
      }
      if c.Some? {
        pbuf[0] := c.value;
        pptr := 1;
        written := written + [c.value];
        assert pbuf[..1] == [c.value];
      }
      return true;
    }

    method Sputc(c: char) returns (ok: bool)
      requires Valid()
      modifies this`pptr, this`written, channel`sent, channel`failures, pbuf
      ensures Valid()
      ensures channel.failures == old(channel.failures) + if ok then 0 else 1
      ensures written == if ok then old(written) + [c] else old(written)
      ensures ok && old(WritesInOrder()) ==> WritesInOrder()
    {
      if pptr < buf_size {
        ghost var before := pbuf[..pptr];
        pbuf[pptr] := c;
        pptr := pptr + 1;
        written := written + [c];
        assert pbuf[..pptr] == before + [c];
        ok := true;
      } else {
        ok := Overflow(Some(c));
      }
    }

    /** Writing any text, of any length, through a buffer of any size: it succeeds if and only
      * if no send fails, and then all of it is written, in order and once.
      */
    method Write(data: seq<char>) returns (ok: bool)
      requires Valid()
      modifies this`pptr, this`written, channel`sent, channel`failures, pbuf
      ensures Valid()
      ensures channel.failures == old(channel.failures) + if ok then 0 else 1
      ensures ok ==> written == old(written) + data
      ensures old(written) <= written <= old(written) + data
      ensures ok && old(WritesInOrder()) ==> WritesInOrder()
    {
      ok := true;
      for i := 0 to |data|
        invariant Valid() && ok
        invariant written == old(written) + data[..i]
        invariant channel.failures == old(channel.failures)
        invariant old(WritesInOrder()) ==> WritesInOrder()
      {
        ok := Sputc(data[i]);
        if !ok {
          return;
        }
        assert data[..i] + [data[i]] == data[..i + 1];
      }
      assert data[..|data|] == data;
    }

    /** Write then flush: if and only if no send fails, it succeeds, and the peer has been sent
      * exactly what was written before and now.
      */
    method WriteAndFlush(data: seq<char>) returns (ok: bool)
      requires Valid() && WritesInOrder()
      modifies this`pptr, this`written, channel`sent, channel`failures, pbuf
      ensures Valid()
      ensures channel.failures == old(channel.failures) + if ok then 0 else 1
      ensures ok ==> channel.sent == old(written) + data && pptr == 0 && WritesInOrder()
    {
      ok := Write(data);
      if !ok {
        return;
      }
      var ret := Sync();
      ok := ret == 0;
      assert pbuf[..0] == [];
    }

    /** Refills an exhausted get area and shows its first byte; there is none if and only if
      * the receive yields nothing.
      */
    method Underflow() returns (c: Option<char>)
      requires Valid() && gptr == egptr
      modifies this`gptr, this`egptr, channel`received, channel`ends, gbuf
      ensures Valid()
      ensures channel.ends == old(channel.ends) + if c.None? then 1 else 0
      ensures c.Some? ==> gptr < egptr && c.value == gbuf[gptr]
      ensures c.Some? ==> channel.received == old(channel.received) + gbuf[gptr..egptr]
      ensures c.None? ==> gptr == egptr && channel.received == old(channel.received)
      ensures old(ReadsInOrder()) ==> ReadsInOrder()
    {
      var data := channel.Receive(buf_size);
      if |data| > 0 {
        forall i | 0 <= i < |data| {
          gbuf[i] := data[i];
        }
        gptr, egptr := 0, |data|;
        assert gbuf[0..|data|] == data;
        assert old(gbuf[gptr..egptr]) == [];
        return Some(gbuf[0]);
      }
      return None;
    }

    method Sbumpc() returns (c: Option<char>)
      requires Valid()
      modifies this`gptr, this`egptr, this`consumed, channel`received, channel`ends, gbuf
      ensures Valid()
      ensures consumed == if c.Some? then old(consumed) + [c.value] else old(consumed)
      ensures channel.ends == old(channel.ends) + if c.None? then 1 else 0
      ensures c.None? ==> gptr == egptr
      ensures old(ReadsInOrder()) ==> ReadsInOrder()
    {
      if gptr == egptr {
        var first := Underflow();
        if first.None? {
          return None;
        }
      }
      c := Some(gbuf[gptr]);
      assert gbuf[gptr..egptr] == [gbuf[gptr]] + gbuf[gptr + 1..egptr];
      consumed := consumed + [gbuf[gptr]];
      gptr := gptr + 1;
    }

    /** Reading n bytes through a buffer of any size yields the next n received bytes, and
      * fewer if and only if a receive yields nothing.
      */
    method Read(n: nat) returns (data: seq<char>)
      requires Valid() && ReadsInOrder()
      modifies this`gptr, this`egptr, this`consumed, channel`received, channel`ends, gbuf
      ensures Valid() && ReadsInOrder()
      ensures consumed == old(consumed) + data && |data| <= n
      ensures old(consumed) + data <= channel.received
      ensures channel.ends == old(channel.ends) + if |data| < n then 1 else 0
      ensures |data| < n ==> gptr == egptr
    {
      data := [];
      for i := 0 to n
        invariant Valid() && ReadsInOrder() && |data| == i
        invariant consumed == old(consumed) + data && channel.ends == old(channel.ends)
      {
        var c := Sbumpc();
        if c.None? {
          return;
        }
        data := data + [c.value];
      }
    }
  }

  // Sending a put area whose first bytes have already gone out breaks the order.
  lemma ResendDuplicates(sent: seq<char>, part: seq<char>, all: seq<char>)
    ensures (sent + part) + all == sent + all <==> part == []
  {
    if part != [] {
      assert |(sent + part) + all| != |sent + all|;
    } else {
      assert (sent + part) + all == sent + all;
    }
  }
}
