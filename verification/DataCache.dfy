/** `data_cache` as the object it is: rows shared by reference between the table and the threads that
    wait on them. Each method is one section that runs under the table lock, the row lock or both; its
    contract is the function of the same name in `ResponseCache`. */
module DataCaches {
  import opened Wire
  import opened ResponseCache

  /** A `flat_buffer`, passed by reference and swapped. */
  class FlatBuffer {
    var bytes: Bytes

    constructor ()
      ensures bytes == []
    {
      bytes := [];
    }

    method Consume(n: nat)
      modifies this
      ensures bytes == if n <= |old(bytes)| then old(bytes)[n..] else []
    {
      bytes := if n <= |bytes| then bytes[n..] else [];
    }
  }

  /** `data_read` */
  class DataRead {
    const timestamp: int
    const validMs: int
    var state: DataState
    var buffer: Bytes

    constructor (timestamp: int, valid: int)
      ensures View() == Row(timestamp, Millis(valid), Queued, [])
    {
      this.timestamp := timestamp;
      this.validMs := Millis(valid);
      state, buffer := Queued, [];
    }

    function View(): Row
      reads this
    {
      Row(timestamp, validMs, state, buffer)
    }

    predicate StillValid(now: int)
      reads this
      ensures StillValid(now) <==> ValidAt(View(), now)
    {
      Millis(now - timestamp) < validMs
    }
  }

  class DataCache {
    const maxEntries: nat
    var idCounter: U64
    var entries: map<U64, DataRead>
    /** Every row ever made, under its id (a waiter may hold one that has left the table), its contents,
        and the ids on whose condition variable `notify_all` was called. */
    ghost var rows: map<U64, DataRead>
    ghost var contents: map<U64, Row>
    ghost var told: set<U64>

    ghost predicate Valid()
      reads this, rows.Values
    {
      && rows.Keys == contents.Keys
      && (forall id :: id in entries ==> id in rows && entries[id] == rows[id])
      && (forall id :: id in rows ==> rows[id].View() == contents[id])
      && (forall i, j :: i in rows && j in rows && i != j ==> rows[i] != rows[j])
    }

    ghost function View(): Cache
      reads this
    {
      Cache(maxEntries, idCounter, contents, entries.Keys)
    }

    constructor (maxEntries: nat)
      ensures Valid() && View() == NewCache(maxEntries)
      ensures rows == map[]
    {
      this.maxEntries := maxEntries;
      idCounter, entries, rows, contents, told := 0, map[], map[], map[], {};
    }

    method Queue(now: int, valid: int) returns (id: U64)
      requires Valid()
      modifies this
      ensures Valid() && (View(), id) == ResponseCache.Queue(old(View()), now, valid)
      ensures told == old(told)
      ensures rows == old(rows) || (id in rows && fresh(rows[id]) && rows == old(rows)[id := rows[id]])
    {
      assert |entries.Keys| == |entries|;
      if |entries| >= maxEntries {
        return 0;
      }
      var row := new DataRead(now, valid);
      idCounter := (idCounter + 1) % U64_LIMIT;
      id := idCounter;
      Insert(id, row);
    }

    method Insert(id: U64, row: DataRead)
      requires Valid() && forall k :: k in rows ==> rows[k] != row
      modifies this`entries, this`rows, this`contents
      ensures Valid() && rows == old(rows)[id := row]
      ensures contents == old(contents)[id := row.View()] && entries.Keys == old(entries).Keys + {id}
    {
      entries := entries[id := row];
      rows := rows[id := row];
      contents := contents[id := row.View()];
    }

    /** The part of `wait` under the table lock: a swapped row is erased, any other is marked. */
    method Lookup(id: U64) returns (row: DataRead?, found: Found)
      requires Valid()
      modifies this`entries, this`contents, rows.Values
      ensures Valid() && (View(), found) == ResponseCache.Lookup(old(View()), id)
      ensures if found == Absent then row == null else id in rows && row == rows[id]
    {
      if id !in entries {
        return null, Absent;
      }
      row := entries[id];
      if row.state == Swapped {
        entries := entries - {id};
        found := Ready;
      } else {
        row.state := Waiting;
        contents := contents[id := row.View()];
        found := Registered;
      }
    }

    /** The last section of `wait`, under the row lock. */
    method Take(ghost id: U64, row: DataRead, buffer: FlatBuffer)
      requires Valid() && id in rows && row == rows[id]
      modifies this`contents, row`buffer, buffer
      ensures Valid() && (View(), buffer.bytes) == ResponseCache.Take(old(View()), id, old(buffer.bytes))
    {
      buffer.bytes, row.buffer := row.buffer, buffer.bytes;
      contents := contents[id := row.View()];
    }

    /** The section of `swap_notify` under the row lock. */
    method SwapIn(id: U64, buffer: FlatBuffer) returns (state: DataState)
      requires Valid() && id in entries
      modifies this`contents, rows[id], buffer
      ensures Valid() && buffer.bytes == []
      ensures contents == old(contents)[id := old(contents)[id].(state := Swapped, buffer := old(buffer.bytes))]
      ensures state == old(contents)[id].state
    {
      var row := entries[id];
      state := row.state;
      row.buffer, buffer.bytes := buffer.bytes, row.buffer;
      buffer.bytes := [];
      row.state := Swapped;
      contents := contents[id := row.View()];
    }

    method SwapNotify(id: U64, buffer: FlatBuffer)
      requires Valid()
      modifies this`entries, this`contents, this`told, rows.Values, buffer
      ensures Valid() && (View(), buffer.bytes) == ResponseCache.SwapNotify(old(View()), id, old(buffer.bytes))
      ensures told == old(told) + if id in old(entries) && old(contents)[id].state == Waiting then {id} else {}
    {
      if id !in entries {
        return;
      }
      var state := SwapIn(id, buffer);
      if state == Waiting {
        told := told + {id};
        Erase(id);
      }
    }

    method Erase(id: U64)
      requires Valid()
      modifies this`entries
      ensures Valid() && View() == old(View()).(table := old(entries).Keys - {id})
    {
      entries := entries - {id};
    }

    /** Erases while it goes through the table. */
    method RemoveObsolete(now: int)
      requires Valid()
      modifies this`entries
      ensures Valid() && View() == ResponseCache.RemoveObsolete(old(View()), now)
    {
      var todo := entries.Keys;
      while todo != {}
        invariant Valid() && todo <= entries.Keys
        invariant ResponseCache.RemoveObsolete(View(), now) == ResponseCache.RemoveObsolete(old(View()), now)
        invariant forall id :: id in entries.Keys - todo ==> id in contents && ValidAt(contents[id], now)
        decreases todo
      {
        var id :| id in todo;
        if !entries[id].StillValid(now) {
          RemoveOneRow(View(), now, id);
          Erase(id);
        }
        todo := todo - {id};
      }
      RemoveNothing(View(), now);
    }

    /** Marks, notifies and erases one row. */
    method ClearRow(id: U64)
      requires Valid() && id in entries
      modifies this`entries, this`contents, this`told, rows[id]
      ensures Valid() && told == old(told) + {id}
      ensures View() == old(View()).(table := old(entries).Keys - {id},
                                     rows := old(contents)[id := old(contents)[id].(state := Swapped)])
    {
      var row := entries[id];
      row.state := Swapped;
      contents := contents[id := row.View()];
      told := told + {id};
      entries := entries - {id};
    }

    method Clear()
      requires Valid()
      modifies this`entries, this`contents, this`told, rows.Values
      ensures Valid() && View() == ResponseCache.Clear(old(View()))
      ensures told == old(told) + old(entries).Keys
    {
      while entries != map[]
        invariant Valid()
        invariant ResponseCache.Clear(View()) == ResponseCache.Clear(old(View()))
        invariant told + entries.Keys == old(told) + old(entries).Keys
        decreases entries.Keys
      {
        var id :| id in entries;
        ClearOneRow(View(), id);
        MoveBetween(told, entries.Keys, id);
        ClearRow(id);
      }
      ClearNothing(View());
    }
  }

  /** Taking out one obsolete row first, and then the rest, is taking out all. */
  lemma RemoveOneRow(c: Cache, now: int, id: U64)
    requires id in c.rows && !ValidAt(c.rows[id], now)
    ensures ResponseCache.RemoveObsolete(c.(table := c.table - {id}), now) == ResponseCache.RemoveObsolete(c, now)
  {
    assert ResponseCache.RemoveObsolete(c.(table := c.table - {id}), now).table
        == ResponseCache.RemoveObsolete(c, now).table;
  }

  lemma RemoveNothing(c: Cache, now: int)
    requires forall id :: id in c.table ==> id in c.rows && ValidAt(c.rows[id], now)
    ensures ResponseCache.RemoveObsolete(c, now) == c
  {
    assert ResponseCache.RemoveObsolete(c, now).table == c.table;
  }

  /** Clearing one row first, and then the rest, is clearing all. */
  lemma ClearOneRow(c: Cache, id: U64)
    requires id in c.table && id in c.rows
    ensures Clear(c.(table := c.table - {id}, rows := c.rows[id := c.rows[id].(state := Swapped)])) == Clear(c)
  {
    var c' := c.(table := c.table - {id}, rows := c.rows[id := c.rows[id].(state := Swapped)]);
    assert Clear(c').rows == Clear(c).rows;
  }

  lemma MoveBetween(told: set<U64>, left: set<U64>, id: U64)
    requires id in left
    ensures (told + {id}) + (left - {id}) == told + left
  {
  }

  lemma ClearNothing(c: Cache)
    requires c.table == {}
    ensures Clear(c) == c
  {
    assert Clear(c).rows == c.rows;
  }
}
