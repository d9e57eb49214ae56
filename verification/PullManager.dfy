/** An active pull over its bitmap object, its file and its row in the store. */
module PullManager {
  import opened Prelude
  import opened Chunks
  import Bitmap
  import Pull

  class Puller {
    const o: Pull.Offer
    var active: bool
    var bm: Bitmap.Marks
    var file: Bytes
    var window: seq<nat>
    var dirty: nat
    // the row of the file
    var storedBits: seq<bv8>
    var done: bool
    // the requests sent
    var asked: seq<seq<nat>>

    ghost predicate Valid()
      reads this, bm
    {
      o.m.Valid() && bm.Valid() && bm.n == o.m.Chunks()
    }

    ghost function View(): Pull.Transfer
      requires Valid()
      reads this, bm, bm.bits
    {
      Pull.Transfer(active, bm.Marked(), file, window, dirty, Bitmap.Restored(storedBits, bm.n), done, asked)
    }

    constructor (o: Pull.Offer)
      requires o.m.Valid()
      ensures Valid() && this.o == o && fresh(bm) && fresh(bm.bits)
      ensures View() == Pull.OFFERED
    {
      this.o := o;
      active, file, window, dirty, done, asked := false, [], [], 0, false, [];
      bm := new Bitmap.Marks(o.m.Chunks());
      storedBits := [];
      new;
      storedBits := bm.Bytes();
    }

    method RequestWindow()
      requires Valid()
      modifies this`window, this`asked
      ensures Valid() && View() == Pull.RequestWindow(o.m, old(View()))
    {
      var missing := bm.FirstMissing(Pull.WINDOW);
      if |missing| == 0 {
        return;
      }
      window := missing;
      asked := asked + [missing];
    }

    method WindowDone() returns (b: bool)
      requires Valid()
      ensures b == Pull.WindowDone(View())
    {
      for k := 0 to |window|
        invariant forall j :: 0 <= j < k ==> window[j] in bm.Marked()
      {
        var has := bm.Has(window[k]);
        if !has {
          return false;
        }
      }
      return true;
    }

    method PersistPull()
      requires Valid()
      modifies this`dirty, this`storedBits, this`done
      ensures Valid() && View() == Pull.Persist(old(View()))
    {
      dirty := 0;
      done := false;
      storedBits := bm.Bytes();
    }

    method FinishPull()
      requires Valid()
      modifies this`active, this`dirty, this`storedBits, this`done
      ensures Valid() && View() == Pull.Finish(o, old(View()))
    {
      active := false;
      if o.hash(file) != o.m.hash {
        PersistPull();
        return;
      }
      storedBits := bm.Bytes();
      done := true;
    }

    method AcceptChunk(from: PeerId, c: Chunk)
      requires Valid() && c.index < U32
      modifies this, bm.bits
      ensures Valid() && bm == old(bm) && View() == Pull.AcceptChunk(o, old(View()), from, c)
    {
      if !active || c.id != o.m.id || from != o.peer {
        return;
      }
      var want := o.m.ChunkLen(c.index);
      var has := bm.Has(c.index);
      if want == 0 || has {
        return;
      }
      var plain := OpenChunk(o.m, c.index, c.payload);
      if plain.None? || |plain.value| != want {
        return;
      }
      ghost var before := View();
      Lengths(o.m, c.index);
      file := WriteAt(file, o.m.Start(c.index), plain.value);
      var added := bm.Set(c.index);
      dirty := dirty + 1;
      assert View() == Pull.Marked(o, before, c);
      var complete := bm.Complete();
      if complete {
        FinishPull();
      } else {
        if dirty >= Pull.DIRTY_FLUSH {
          PersistPull();
        }
        var over := WindowDone();
        if over {
          RequestWindow();
        }
      }
    }

    /** Opens the pull, after a restart from the stored bitmap and the file as it was left. */
    method StartPull()
      requires Valid()
      modifies this
      ensures Valid() && View() == Pull.StartPull(o, old(View()))
      ensures bm == old(bm) || (fresh(bm) && fresh(bm.bits))
    {
      if active || done {
        return;
      }
      bm := new Bitmap.Marks.FromBytes(storedBits, o.m.Chunks());
      active, window, dirty := true, [], 0;
      RequestWindow();
    }
  }
}
