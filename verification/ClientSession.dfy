/** `client_session` with its stream, cache and queue: the handlers that run on the IO thread. */
module ClientSessions {
  import opened Wrappers
  import opened Wire
  import opened WritePump
  import opened ClientCore
  import ResponseCache
  import Rpc
  import opened DataCaches
  import opened DataQueues
  import opened Streams

  class ClientSession {
    const stream: Stream
    const readBuffer: FlatBuffer
    const cache: DataCache
    const queue: DataQueue
    /** The ids bound to a broadcast handler; false stands for an empty function. */
    const boundFuncs: map<U32, bool>
    var readError: bool
    var writeError: bool
    var close: bool
    var closeReceived: bool
    /** The abstract pump, and the broadcasts handed to handlers. */
    ghost var pump: Pump<Entry>
    ghost var heard: seq<(U32, Bytes)>

    /** What every run of the pump keeps, kept by the object. */
    ghost predicate Valid()
      reads this, stream, cache, queue, queue.cells, cache.rows.Values
    {
      Linked() && WritePump.Inv(pump)
    }

    ghost predicate Linked()
      reads this, stream, cache, queue, queue.cells, cache.rows.Values
    {
      SendsLinked() && cache.Valid()
    }

    /** The fields are those of the pump, and the write in flight is that of the front entry. */
    ghost predicate SendsLinked()
      reads this`pump, this`close, this`closeReceived, this`writeError, this`readError
      reads stream`closes, stream`writing, queue, queue.cells
    {
      && queue.Valid() && queue.maxEntries == QUEUE_SEND_MAX
      && (pump.writing <==> pump.queue != [])
      && pump.flags == Flags(close, closeReceived, writeError, readError)
      && pump.queue == queue.queued
      && pump.closes == stream.closes
      && stream.writing == InFlight(pump.queue)
    }

    static ghost function InFlight(queue: seq<Entry>): Option<Buffers> {
      if queue == [] then None else Some(Buffers(EntryHeader(queue[0]), queue[0].body))
    }

    constructor (boundFuncs: map<U32, bool>)
      ensures Valid() && fresh(stream) && fresh(readBuffer) && fresh(cache) && fresh(queue)
      ensures pump == NewPump() && cache.View() == ResponseCache.NewCache(ResponseCache.QUEUE_RECV_MAX)
      ensures !stream.reading && heard == [] && queue.promises == []
    {
      stream := new Stream();
      readBuffer := new FlatBuffer();
      cache := new DataCache(ResponseCache.QUEUE_RECV_MAX);
      queue := new DataQueue(QUEUE_SEND_MAX);
      this.boundFuncs := boundFuncs;
      readError, writeError, close, closeReceived := false, false, false, false;
      pump, heard := NewPump(), [];
      NewPumpKeepsInv<Entry>();
    }

    method HandleSend(entry: Entry, callback: SharedPromise)
      requires Valid() && queue.Owned(DataSend(entry, callback))
      modifies this`pump, queue`entries, queue`queued, stream`writing
      ensures Valid() && pump == WritePump.HandleSend(old(pump), entry)
    {
      SendKeepsInv(pump, entry);
      Enqueue(entry, callback);
    }

    method Enqueue(entry: Entry, callback: SharedPromise)
      requires SendsLinked() && queue.Owned(DataSend(entry, callback))
      modifies this`pump, queue`entries, queue`queued, stream`writing
      ensures SendsLinked() && pump == WritePump.HandleSend(old(pump), entry)
    {
      ghost var before := pump;
      if close || closeReceived || writeError || readError {
        return;
      }
      var ok := queue.Queue(entry, callback);
      if !ok {
        return;
      }
      pump := WritePump.HandleSend(before, entry);
      if queue.IsWriting() {
        return;
      }
      Write();
    }

    /** Starts the write of the front entry: header and body in one message. */
    method Write()
      requires stream.writing == None && queue.Valid() && queue.entries != []
      modifies stream`writing
      ensures stream.writing == InFlight(queue.queued)
    {
      var front := queue.Front().entry;
      stream.AsyncWrite(Buffers(EntryHeader(front), front.body));
    }

    /** The environment: the channel takes the bytes of the write in flight. */
    ghost method Deliver()
      requires Valid() && pump.writing && !pump.onWire
      modifies this`pump
      ensures Valid() && pump == Transmit(old(pump))
    {
      TransmitKeepsInv(pump);
      pump := Transmit(pump);
    }

    /** A write completes without an error only once its bytes are out (see `Deliver`). */
    method OnWrite(failed: bool)
      requires Valid() && pump.writing && (failed || pump.onWire)
      modifies this`pump, this`writeError, this`close, queue`entries, queue`queued, queue`promises, queue.cells
      modifies stream`writing, stream`closes
      ensures Valid() && pump == WritePump.OnWrite(old(pump), failed, true)
      ensures queue.promises == PromisesAfterWrite(old(pump), old(queue.promises), failed)
    {
      WritePump.StepKeepsInv(pump, WritePump.Action.WriteDone(failed, true));
      WriteCompletes(failed);
    }

    method WriteCompletes(failed: bool)
      requires SendsLinked() && pump.writing
      modifies this`pump, this`writeError, this`close, queue`entries, queue`queued, queue`promises, queue.cells
      modifies stream`writing, stream`closes
      ensures SendsLinked() && pump == WritePump.OnWrite(old(pump), failed, true)
      ensures queue.promises == PromisesAfterWrite(old(pump), old(queue.promises), failed)
    {
      stream.WriteCompletes();
      if failed || close || closeReceived || readError {
        GiveUp(failed);
        return;
      }
      NextWrite();
    }

    method GiveUp(ghost failed: bool)
      requires queue.Valid() && pump.queue == queue.queued && WriteGivesUp(pump, failed)
      requires pump.flags == Flags(close, closeReceived, writeError, readError) && pump.closes == stream.closes
      modifies this`pump, this`writeError, this`close, queue`entries, queue`queued, queue`promises, queue.cells
      modifies stream`closes
      ensures queue.Valid() && pump == WritePump.OnWrite(old(pump), failed, true) && pump.queue == queue.queued
      ensures pump.flags == Flags(close, closeReceived, writeError, readError) && pump.closes == stream.closes
      ensures queue.promises == FulfilAll(old(queue.promises), old(pump.queue), false)
    {
      queue.Clear();
      writeError := true;
      pump := WritePump.OnWrite(pump, failed, false);
      CloseSession();
    }

    /** The front entry is written: resolve it, and go on with the next one. */
    method NextWrite()
      requires queue.Valid() && pump.queue == queue.queued && stream.writing == None
      requires queue.entries != [] && !WriteGivesUp(pump, false)
      modifies this`pump, queue`entries, queue`queued, queue`promises, queue.cells, stream`writing
      ensures queue.Valid() && pump == WritePump.OnWrite(old(pump), false, true) && pump.queue == queue.queued
      ensures queue.promises == FulfilAll(old(queue.promises), [old(pump.queue)[0]], true)
      ensures stream.writing == InFlight(queue.queued)
    {
      var more := queue.WriteNext();
      if more {
        Write();
      }
      pump := WritePump.OnWrite(pump, false, true);
    }

    method CloseSession()
      requires pump.flags == Flags(close, closeReceived, writeError, readError) && pump.closes == stream.closes
      modifies this`pump, this`close, stream`closes
      ensures pump == CloseNow(old(pump))
      ensures pump.flags == Flags(close, closeReceived, writeError, readError) && pump.closes == stream.closes
    {
      if close || closeReceived {
        return;
      }
      close := true;
      stream.AsyncClose();
      pump := CloseNow(pump);
    }

    /** The read buffer holds one message, unless the read failed. Reading goes on only after a message. */
    method OnRead(failed: bool, now: int)
      requires Valid() && stream.reading
      modifies this`pump, this`readError, this`close, this`heard, readBuffer
      modifies cache`entries, cache`contents, cache`told, cache.rows.Values, stream`reading, stream`closes
      ensures Valid()
      ensures failed || old(closeReceived) ==>
        && cache.View() == ResponseCache.Clear(old(cache.View()))
        && pump == ReadFails(old(pump), true)
        && !stream.reading && heard == old(heard)
      ensures !failed && !old(closeReceived) ==>
        && cache.View() == Rpc.CacheAfterRead(old(cache.View()), boundFuncs.Keys, old(readBuffer.bytes), now)
        && pump == old(pump)
        && stream.reading && heard == old(heard) + Heard(boundFuncs, old(readBuffer.bytes))
        && readBuffer.bytes == []
    {
      ReadFailsKeepsInv(pump, true);
      ReadCompletes(failed, now);
    }

    method ReadCompletes(failed: bool, now: int)
      requires Linked() && stream.reading
      modifies this`pump, this`readError, this`close, this`heard, readBuffer
      modifies cache`entries, cache`contents, cache`told, cache.rows.Values, stream`reading, stream`closes
      ensures Linked()
      ensures failed || old(closeReceived) ==>
        && cache.View() == ResponseCache.Clear(old(cache.View()))
        && pump == ReadFails(old(pump), true)
        && !stream.reading && heard == old(heard)
      ensures !failed && !old(closeReceived) ==>
        && cache.View() == Rpc.CacheAfterRead(old(cache.View()), boundFuncs.Keys, old(readBuffer.bytes), now)
        && pump == old(pump)
        && stream.reading && heard == old(heard) + Heard(boundFuncs, old(readBuffer.bytes))
        && readBuffer.bytes == []
    {
      stream.ReadCompletes();
      if failed || closeReceived {
        ReadEnds();
      } else {
        ReadMessage(now);
      }
    }

    method ReadMessage(now: int)
      requires cache.Valid() && !stream.reading
      modifies this`heard, readBuffer, stream`reading
      modifies cache`entries, cache`contents, cache`told, cache.rows.Values
      ensures cache.Valid() && stream.reading && readBuffer.bytes == []
      ensures cache.View() == Rpc.CacheAfterRead(old(cache.View()), boundFuncs.Keys, old(readBuffer.bytes), now)
      ensures heard == old(heard) + Heard(boundFuncs, old(readBuffer.bytes))
    {
      Dispatch();
      cache.RemoveObsolete(now);
      readBuffer.Consume(|readBuffer.bytes|);
      stream.AsyncRead();
    }

    method ReadEnds()
      requires cache.Valid()
      requires pump.flags == Flags(close, closeReceived, writeError, readError) && pump.closes == stream.closes
      modifies this`pump, this`readError, this`close, stream`closes
      modifies cache`entries, cache`contents, cache`told, cache.rows.Values
      ensures cache.Valid() && cache.View() == ResponseCache.Clear(old(cache.View()))
      ensures pump == ReadFails(old(pump), true)
      ensures pump.flags == Flags(close, closeReceived, writeError, readError) && pump.closes == stream.closes
    {
      cache.Clear();
      readError := true;
      pump := ReadFails(pump, false);
      CloseSession();
    }

    /** The message goes to a broadcast handler if its id is bound, else to the cache. */
    method Dispatch()
      requires cache.Valid()
      modifies this`heard, readBuffer, cache`entries, cache`contents, cache`told, cache.rows.Values
      ensures cache.Valid() && cache.View() == Rpc.AfterMessage(old(cache.View()), boundFuncs.Keys, old(readBuffer.bytes))
      ensures heard == old(heard) + Heard(boundFuncs, old(readBuffer.bytes))
    {
      if |readBuffer.bytes| >= HEADER_SIZE {
        var header := Unpack(readBuffer.bytes[..HEADER_SIZE]);
        readBuffer.Consume(HEADER_SIZE);
        if header.callId in boundFuncs {
          if boundFuncs[header.callId] {
            heard := heard + [(header.callId, readBuffer.bytes)];
          }
        } else {
          cache.SwapNotify(header.resultId, readBuffer);
        }
      }
    }

    method OnControl(closeFrame: bool)
      requires Valid()
      modifies this`pump, this`closeReceived
      ensures Valid() && pump == if closeFrame then CloseFrame(old(pump)) else old(pump)
    {
      CloseKeepsInv(pump);
      if closeFrame {
        closeReceived := true;
        pump := CloseFrame(pump);
      }
    }
  }

  /** The broadcast handler called for a message, if any, with the bytes after the header. */
  function Heard(boundFuncs: map<U32, bool>, msg: Bytes): seq<(U32, Bytes)> {
    match Split(msg)
    case Malformed => []
    case Message(h, body) => if h.callId in boundFuncs && boundFuncs[h.callId] then [(h.callId, body)] else []
  }
}
