/** `data_queue` as the object it is, with the promises its entries refer to. */
module DataQueues {
  import opened Wrappers
  import opened Wire
  import opened ClientCore

  /** A shared `promise<bool>`; `held` while its caller keeps it, so that a weak pointer can be locked. */
  class SharedPromise {
    var held: bool
    var value: Option<bool>

    constructor ()
      ensures View() == Promise(true, None)
    {
      held, value := true, None;
    }

    function View(): Promise
      reads this
    {
      Promise(held, value)
    }

    /** Lock the weak pointer and set the value; a second `set_value` throws, which the caller swallows. */
    method SetValue(v: bool)
      modifies this
      ensures View() == Fulfil(old(View()), v)
    {
      if held {
        if value.None? {
          value := Some(v);
        }
      }
    }
  }

  datatype DataSend = DataSend(entry: Entry, callback: SharedPromise)

  class DataQueue {
    const maxEntries: nat
    var entries: seq<DataSend>
    /** What is queued, the promises of all callers so far, and their contents. */
    ghost var queued: seq<Entry>
    ghost var cells: seq<SharedPromise>
    ghost var promises: seq<Promise>

    ghost predicate Valid()
      reads this, cells
    {
      && |queued| == |entries| && |promises| == |cells|
      && (forall i :: 0 <= i < |cells| ==> cells[i].View() == promises[i])
      && (forall i, j :: 0 <= i < j < |cells| ==> cells[i] != cells[j])
      && (forall k :: 0 <= k < |entries| ==> entries[k].entry == queued[k] && Owned(entries[k]))
    }

    ghost predicate Owned(d: DataSend)
      reads this
    {
      d.entry.caller < |cells| && d.callback == cells[d.entry.caller]
    }

    constructor (maxEntries: nat)
      ensures Valid() && queued == [] && cells == [] && promises == [] && this.maxEntries == maxEntries
    {
      this.maxEntries := maxEntries;
      entries, queued, cells, promises := [], [], [], [];
    }

    method Queue(entry: Entry, callback: SharedPromise) returns (ok: bool)
      requires Valid() && Owned(DataSend(entry, callback))
      modifies this`entries, this`queued
      ensures Valid() && ok == (|old(queued)| < maxEntries)
      ensures queued == if ok then old(queued) + [entry] else old(queued)
    {
      if |entries| >= maxEntries {
        return false;
      }
      entries := entries + [DataSend(entry, callback)];
      queued := queued + [entry];
      ok := true;
    }

    /** Despite its name: more than one entry, so that some write was in flight before the last `Queue`. */
    predicate IsWriting()
      reads this
    {
      |entries| > 1
    }

    function Front(): DataSend
      requires entries != []
      reads this
    {
      entries[0]
    }

    method Resolve(d: DataSend, v: bool)
      requires Valid() && Owned(d)
      modifies this`promises, d.callback
      ensures Valid() && promises == FulfilAll(old(promises), [d.entry], v)
    {
      d.callback.SetValue(v);
      FulfilOne(promises, d.entry, v);
      promises := promises[d.entry.caller := d.callback.View()];
    }

    method WriteNext() returns (more: bool)
      requires Valid() && entries != []
      modifies this`entries, this`queued, this`promises, cells
      ensures Valid() && promises == FulfilAll(old(promises), [old(queued)[0]], true)
      ensures queued == old(queued)[1..] && more == (queued != [])
    {
      Resolve(entries[0], true);
      entries := entries[1..];
      queued := queued[1..];
      more := entries != [];
    }

    method Clear()
      requires Valid()
      modifies this`entries, this`queued, this`promises, cells
      ensures Valid() && promises == FulfilAll(old(promises), old(queued), false)
      ensures queued == []
    {
      FulfilNone(promises, false);
      var i := 0;
      while i < |entries|
        invariant 0 <= i <= |entries| && Valid() && queued == old(queued)
        invariant promises == FulfilAll(old(promises), queued[..i], false)
      {
        Resolve(entries[i], false);
        FulfilNext(old(promises), queued[..i], queued[i], false);
        assert queued[..i + 1] == queued[..i] + [queued[i]];
        i := i + 1;
      }
      assert queued[..i] == queued;
      entries, queued := [], [];
    }

    /** A caller whose wait timed out lets go of its promise. */
    method DropPromise(ghost caller: nat, callback: SharedPromise)
      requires Valid() && caller < |cells| && callback == cells[caller]
      modifies this`promises, callback
      ensures Valid() && promises == old(promises)[caller := old(promises)[caller].(held := false)]
    {
      callback.held := false;
      promises := promises[caller := callback.View()];
    }

    /** A caller makes its promise. */
    method MakePromise() returns (callback: SharedPromise)
      requires Valid()
      modifies this`cells, this`promises
      ensures Valid() && fresh(callback) && cells == old(cells) + [callback]
      ensures promises == old(promises) + [Promise(true, None)]
    {
      callback := new SharedPromise();
      cells := cells + [callback];
      promises := promises + [callback.View()];
    }
  }

  lemma FulfilOne(ps: seq<Promise>, e: Entry, v: bool)
    requires e.caller < |ps|
    ensures FulfilAll(ps, [e], v) == ps[e.caller := Fulfil(ps[e.caller], v)]
  {
    assert Calls([e], e.caller) by { assert [e][0].caller == e.caller; }
  }

  lemma FulfilNone(ps: seq<Promise>, v: bool)
    ensures FulfilAll(ps, [], v) == ps
  {
  }

  lemma FulfilNext(ps: seq<Promise>, entries: seq<Entry>, e: Entry, v: bool)
    ensures FulfilAll(FulfilAll(ps, entries, v), [e], v) == FulfilAll(ps, entries + [e], v)
  {
    forall i | 0 <= i < |ps|
      ensures FulfilAll(FulfilAll(ps, entries, v), [e], v)[i] == FulfilAll(ps, entries + [e], v)[i]
    {
      CallsOfAppend(entries, e, i);
      assert Calls([e], i) <==> e.caller == i by {
        assert [e][0] == e;
      }
    }
  }
}
