/** The progress bar of the user interface. */
module Progress {
  function Min(a: nat, b: nat): nat {
    if a <= b then a else b
  }

  class ComfyProgress {
    var total: nat
    var current: nat
    ghost var updates: nat  // since the total was set

    /** The bar shows the number of updates, unless there were more than announced. */
    ghost predicate Valid()
      reads this
    {
      total >= 1 && current == Min(total, updates)
    }

    constructor ()
      ensures Valid() && total == 1 && updates == 0
    {
      total, current, updates := 1, 0, 0;
    }

    method SetTotal(n: nat)
      modifies this
      ensures Valid() && updates == 0 && total == if n == 0 then 1 else n
    {
      total := if n == 0 then 1 else n;
      current, updates := 0, 0;
    }

    method Update()
      requires Valid()
      modifies this
      ensures Valid() && updates == old(updates) + 1 && total == old(total)
    {
      current := Min(total, current + 1);
      updates := updates + 1;
    }
  }
}
