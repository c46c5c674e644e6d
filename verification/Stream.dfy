/** `websocket::stream`, as far as a session relies on it. */
module Streams {
  import opened Wrappers
  import opened Wire

  /** The two buffers given to one `async_write`; what goes out is their `Frame`. */
  datatype Buffers = Buffers(header: IoHeader, body: Bytes)

  /** `writing` holds the write in flight. The library forbids a second write or a second
      read while one is outstanding. `closes` and `pings` count the closes and pings started; `open` is
      `is_open()`, and changes as the connection does. */
  class Stream {
    var writing: Option<Buffers>
    var reading: bool
    var open: bool
    var closes: nat
    var pings: nat

    constructor ()
      ensures writing == None && !reading && open && closes == 0 && pings == 0
    {
      writing, reading, open, closes, pings := None, false, true, 0, 0;
    }

    method AsyncPing()
      modifies this`pings
      ensures pings == old(pings) + 1
    {
      pings := pings + 1;
    }

    method AsyncWrite(buffers: Buffers)
      requires writing == None
      modifies this`writing
      ensures writing == Some(buffers)
    {
      writing := Some(buffers);
    }

    /** The write in flight completes, well or not; its handler runs next. */
    method WriteCompletes()
      requires writing.Some?
      modifies this`writing
      ensures writing == None
    {
      writing := None;
    }

    method AsyncRead()
      requires !reading
      modifies this`reading
      ensures reading
    {
      reading := true;
    }

    method ReadCompletes()
      requires reading
      modifies this`reading
      ensures !reading
    {
      reading := false;
    }

    method AsyncClose()
      modifies this`closes
      ensures closes == old(closes) + 1
    {
      closes := closes + 1;
    }
  }
}
