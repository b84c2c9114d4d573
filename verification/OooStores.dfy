/**
 * Stores without results: the one internal check of ruu_issue that depends on the instruction set.
 */
module OooStores {
  import opened OooTypes
  import opened OooStages
  import opened OooFrames

  /** The instruction is a store that names an output register. */
  predicate StoreResult(op: Op) {
    !op.nop && op.mem.StoreOp? && op.outs != [NA, NA]
  }

  /** Some store of the program text names an output register. */
  ghost predicate StoresHaveResults(c: Config) {
    exists pc :: c.InText(pc) && StoreResult(c.decode(c.text(pc)))
  }

  /** No store in the window has an output. */
  ghost predicate ResultFree(w: Window)
    requires Ring(w)
  {
    forall t :: Live(w, t) && w.st[t].kind.Store? ==> w.st[t].onames == [NA, NA]
  }

  /** Why ruu_issue may stop: no link record is free, or a store has a result. */
  ghost predicate IssueStops(w: Window, p: Panic)
    requires Ring(w)
  {
    p == OutOfLinks || (p == StoreCreatesResult && !ResultFree(w))
  }

  lemma QuietStops(w: Window, w': Window, p: Panic)
    requires Ring(w) && Quiet(w, w') && IssueStops(w', p)
    ensures IssueStops(w, p)
  {
    hide RingPos;
    if ResultFree(w) {
      forall t | Live(w', t) && w'.st[t].kind.Store? ensures w'.st[t].onames == [NA, NA] {
        assert Live(w, t);
      }
    }
  }

  lemma TextStores(c: Config, pc: nat)
    requires c.Valid() && !StoresHaveResults(c)
    ensures !StoreResult(c.decode(c.Inst(pc)))
  {
  }
}
