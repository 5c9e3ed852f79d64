/** The connection object: sender and receiver in one, with the fields and loops of
    the code. Its methods are proved to compute the functions that module GoBackN
    reasons about. Timer threads are the subject of module Timers. */
module TcpConnections {
  import opened Packets
  import opened GoBackN

  /** What the connection hands to its host. */
  datatype Outgoing = Outgoing(isAck: bool, packet: Packet)

  function AsData(ps: seq<Packet>): (out: seq<Outgoing>)
    ensures |out| == |ps|
  {
    seq(|ps|, k requires 0 <= k < |ps| => Outgoing(false, ps[k]))
  }

  class TcpConnection {
    const packetSize: nat

    var cwnd: nat
    var ssthresh: nat
    /** The first element is a dummy, so that packet i stands at index i. */
    var outBuffer: seq<Packet>
    var lastAcked: nat
    var lastSent: nat
    var completed: bool

    var inBuffer: seq<Packet>
    var currentMessageSize: nat
    var bytesReceivedSoFar: nat
    var receiverLastAcked: nat

    /** What was handed to the host, and the files written. */
    var outgoing: seq<Outgoing>
    var files: seq<Bytes>

    constructor (packetSize: nat)
      ensures this.packetSize == packetSize && outBuffer == [] && outgoing == [] && files == []
      ensures SenderPart() == Sender(1, MAX_SSTHRESH, 0, 0, false) && ReceiverPart() == Receiver([], 0, 0, 0)
    {
      this.packetSize := packetSize;
      cwnd, ssthresh, outBuffer, lastAcked, lastSent, completed := 1, MAX_SSTHRESH, [], 0, 0, false;
      inBuffer, currentMessageSize, bytesReceivedSoFar, receiverLastAcked := [], 0, 0, 0;
      outgoing, files := [], [];
    }

    function SenderPart(): Sender
      reads this
    {
      Sender(cwnd, ssthresh, lastAcked, lastSent, completed)
    }

    function ReceiverPart(): Receiver
      reads this
    {
      Receiver(inBuffer, bytesReceivedSoFar, currentMessageSize, receiverLastAcked)
    }

    /** packetize: header, then one slice after the other. */
    method Packetize(msg: Bytes)
      requires packetSize > 0 && outBuffer == []
      modifies this`outBuffer
      ensures outBuffer != [] && outBuffer[1..] == Packetized(msg, packetSize)
    {
      var size := |msg|;
      var numberOfPacketsNeeded := size / packetSize + 1;
      if size % packetSize != 0 {
        numberOfPacketsNeeded := numberOfPacketsNeeded + 1;
      }
      outBuffer := outBuffer + [Packet(0, [])];
      outBuffer := outBuffer + [Packet(1, HeaderBody(size))];
      ghost var start, slices := outBuffer, Slices(msg, packetSize, SliceCount(size, packetSize));
      assert numberOfPacketsNeeded == |slices| + 1;
      AppendSlices(msg, numberOfPacketsNeeded + 1, slices);
      assert outBuffer[1..] == Packetized(msg, packetSize);
    }

    /** The loop of packetize over the packets from number 2 on. */
    method AppendSlices(msg: Bytes, capacity: nat, ghost slices: seq<Packet>)
      requires packetSize > 0 && slices == Slices(msg, packetSize, SliceCount(|msg|, packetSize))
      requires capacity == |slices| + 2
      modifies this`outBuffer
      ensures outBuffer == old(outBuffer) + slices
    {
      var i := 2;
      while i < capacity
        invariant 2 <= i <= capacity
        invariant outBuffer == old(outBuffer) + slices[..i - 2]
      {
        SliceAt(msg, packetSize, SliceCount(|msg|, packetSize), i - 2);
        outBuffer := outBuffer + [Packet(i % MAX_PACKET_ID, Slice(msg, packetSize, i - 2))];
        i := i + 1;
      }
    }

    method StartSlowAgain()
      modifies this`ssthresh, this`cwnd, this`lastSent
      ensures SenderPart() == GoBackN.StartSlowAgain(old(SenderPart()))
    {
      ssthresh := if cwnd / 2 < 1 then 1 else cwnd / 2;
      cwnd := 1;
      lastSent := lastAcked;
    }

    /** sendNextWindow: the packets after the last acknowledged one, in order. */
    method SendNextWindow()
      requires lastAcked < |outBuffer|
      modifies this`lastSent, this`outgoing
      ensures SenderPart() == GoBackN.SendNextWindow(old(SenderPart()), |outBuffer| - 1)
      ensures lastAcked <= lastSent < |outBuffer|
      ensures outgoing == old(outgoing) + AsData(outBuffer[lastAcked + 1..lastSent + 1])
    {
      lastSent := lastAcked + cwnd;
      lastSent := if lastSent < |outBuffer| - 1 then lastSent else |outBuffer| - 1;
      var startingPoint := lastAcked + 1;
      var i := startingPoint;
      while i <= lastSent
        invariant SenderPart() == GoBackN.SendNextWindow(old(SenderPart()), |outBuffer| - 1)
        invariant startingPoint <= i <= lastSent + 1 <= |outBuffer|
        invariant outgoing == old(outgoing) + AsData(outBuffer[startingPoint..i])
      {
        assert AsData(outBuffer[startingPoint..i + 1])
               == AsData(outBuffer[startingPoint..i]) + [Outgoing(false, outBuffer[i])];
        outgoing := outgoing + [Outgoing(false, outBuffer[i])];
        i := i + 1;
      }
    }

    /** The window after one that was acknowledged as a whole. */
    method GrowWindow()
      modifies this`cwnd
      ensures cwnd == GoBackN.GrowWindow(old(cwnd), ssthresh)
    {
      if cwnd < ssthresh {
        cwnd := if cwnd * 2 < MAX_PACKET_ID then cwnd * 2 else MAX_PACKET_ID;
      } else {
        cwnd := cwnd + 1;
      }
    }

    /** handleAck, without the timer. After the completion an acknowledgement with the id
        after the last one is looked up behind the end of the buffer: the code writes there,
        and the method returns false. Module GoBackNFinished says when one can arrive. */
    method HandleAck(id: nat) returns (inBounds: bool)
      requires lastAcked < |outBuffer|
      modifies this`cwnd, this`ssthresh, this`lastAcked, this`lastSent, this`completed, this`outgoing
      ensures inBounds <==> old(lastAcked) + 1 < |outBuffer| || id != (old(lastAcked) + 1) % MAX_PACKET_ID
      ensures !inBounds ==> lastAcked == |outBuffer| && outgoing == old(outgoing) && completed == old(completed)
      ensures inBounds ==> SenderPart() == GoBackN.HandleAck(old(SenderPart()), id, |outBuffer| - 1).0
      ensures inBounds && !GoBackN.HandleAck(old(SenderPart()), id, |outBuffer| - 1).1 ==> outgoing == old(outgoing)
      ensures inBounds && GoBackN.HandleAck(old(SenderPart()), id, |outBuffer| - 1).1 ==>
        lastAcked <= lastSent < |outBuffer|
        && outgoing == old(outgoing) + AsData(outBuffer[lastAcked + 1..lastSent + 1])
    {
      inBounds := true;
      if id == (lastAcked + 1) % MAX_PACKET_ID {
        lastAcked := lastAcked + 1;
        if lastAcked >= |outBuffer| {
          return false;
        }
        if id == lastSent % MAX_PACKET_ID {
          if lastAcked == |outBuffer| - 1 {
            completed := true;
            return;
          }
          GrowWindow();
          SendNextWindow();
        }
      } else if id > (lastAcked + 1) % MAX_PACKET_ID {
        StartSlowAgain();
        SendNextWindow();
      }
    }

    /** What the timer thread does when it runs out. */
    method Retransmit()
      requires lastAcked < |outBuffer| - 1
      modifies this`cwnd, this`ssthresh, this`lastSent, this`outgoing
      ensures SenderPart()
              == GoBackN.SendNextWindow(GoBackN.StartSlowAgain(old(SenderPart())), |outBuffer| - 1)
      ensures lastSent == lastAcked + 1
      ensures outgoing == old(outgoing) + [Outgoing(false, outBuffer[lastAcked + 1])]
    {
      StartSlowAgain();
      SendNextWindow();
      assert outBuffer[lastAcked + 1..lastSent + 1] == [outBuffer[lastAcked + 1]];
    }

    /** onNewFileCompletelyReceived: the bodies behind the header are written. */
    method OnNewFileCompletelyReceived()
      requires inBuffer != []
      modifies this`inBuffer, this`bytesReceivedSoFar, this`currentMessageSize, this`receiverLastAcked, this`files
      ensures ReceiverPart() == Receiver([], 0, 0, 0)
      ensures files == old(files) + [Joined(old(inBuffer)[1..])]
    {
      inBuffer := inBuffer[1..];
      var file: Bytes := [];
      var k := 0;
      while k < |inBuffer|
        invariant k <= |inBuffer| && file == Joined(inBuffer[..k])
      {
        assert inBuffer[..k + 1][..k] == inBuffer[..k];
        file := file + inBuffer[k].body;
        k := k + 1;
      }
      assert inBuffer[..k] == inBuffer;
      files := files + [file];
      inBuffer := [];
      bytesReceivedSoFar := 0;
      currentMessageSize := 0;
      receiverLastAcked := 0;
    }

    /** handleData: store the packet if it is the expected one, and acknowledge it in
        any case with its own id. */
    method HandleData(packet: Packet)
      modifies this`inBuffer, this`bytesReceivedSoFar, this`currentMessageSize, this`receiverLastAcked,
               this`files, this`outgoing
      ensures ReceiverPart() == GoBackN.HandleData(old(ReceiverPart()), packet).0
      ensures files == match GoBackN.HandleData(old(ReceiverPart()), packet).1
                       case Some(file) => old(files) + [file]
                       case None => old(files)
      ensures outgoing == old(outgoing) + [Outgoing(true, packet)]
    {
      if |inBuffer| == 0 && bytesReceivedSoFar == 0 && |packet.body| == 8 {
        currentMessageSize := Decode(packet.body);
        inBuffer := inBuffer + [packet];
      } else if packet.id == (receiverLastAcked + 1) % MAX_PACKET_ID {
        inBuffer := inBuffer + [packet];
        bytesReceivedSoFar := bytesReceivedSoFar + |packet.body|;
        if currentMessageSize == bytesReceivedSoFar {
          OnNewFileCompletelyReceived();
        }
      }
      if packet.id == (receiverLastAcked + 1) % MAX_PACKET_ID {
        receiverLastAcked := receiverLastAcked + 1;
      }
      outgoing := outgoing + [Outgoing(true, packet)];
    }
  }
}
