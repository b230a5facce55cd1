/** Queued commands, Python's stable sort by their order, and the chainable command nodes. */
module Commands {
  import opened Options

  datatype Phase = BeforeStart | AfterStart | AfterReady | Teardown
  datatype Policy = Fail | Continue | Retry

  datatype Command = Command(command: string, phase: Phase, order: int, policy: Policy, retryCount: int,
                             source: Option<string>)

  predicate Sorted(s: seq<Command>) {
    forall i, j :: 0 <= i < j < |s| ==> s[i].order <= s[j].order
  }

  function Insert(c: Command, s: seq<Command>): seq<Command> {
    if s == [] || c.order <= s[0].order then [c] + s else [s[0]] + Insert(c, s[1..])
  }

  /** sorted(s, key=lambda item: item.order) */
  function Sort(s: seq<Command>): seq<Command> {
    if s == [] then [] else Insert(s[0], Sort(s[1..]))
  }

  function Filter(s: seq<Command>, p: Command -> bool): (r: seq<Command>)
    ensures forall c :: c in r <==> c in s && p(c)
  {
    if s == [] then []
    else if p(s[0]) then [s[0]] + Filter(s[1..], p)
    else Filter(s[1..], p)
  }

  lemma {:induction false} InsertMultiset(c: Command, s: seq<Command>)
    ensures multiset(Insert(c, s)) == multiset(s) + multiset{c}
  {
    if s != [] {
      InsertMultiset(c, s[1..]);
      assert s == [s[0]] + s[1..];
    }
  }

  lemma {:induction false} InsertSorted(c: Command, s: seq<Command>)
    requires Sorted(s)
    ensures Sorted(Insert(c, s))
    ensures s != [] && s[0].order < c.order ==> Insert(c, s)[0] == s[0]
    ensures s == [] || c.order <= s[0].order ==> Insert(c, s)[0] == c
  {
    if s != [] && s[0].order < c.order {
      InsertSorted(c, s[1..]);
      var r := Insert(c, s[1..]);
      assert s[0].order <= r[0].order;
    }
  }

  /** The sort orders its input, and loses and invents nothing. */
  lemma {:induction false} SortSorted(s: seq<Command>)
    ensures Sorted(Sort(s)) && multiset(Sort(s)) == multiset(s)
  {
    if s != [] {
      SortSorted(s[1..]);
      InsertSorted(s[0], Sort(s[1..]));
      InsertMultiset(s[0], Sort(s[1..]));
      assert s == [s[0]] + s[1..];
    }
  }

  lemma {:induction false} FilterInsert(c: Command, s: seq<Command>, p: Command -> bool)
    requires Sorted(s)
    ensures Filter(Insert(c, s), p) == if p(c) then Insert(c, Filter(s, p)) else Filter(s, p)
  {
    if s == [] || c.order <= s[0].order {
      assert ([c] + s)[1..] == s;
      var r := Filter(s, p);
      if r != [] {
        assert r[0] in s;
      }
    } else {
      FilterInsert(c, s[1..], p);
      assert ([s[0]] + Insert(c, s[1..]))[1..] == Insert(c, s[1..]);
      if p(s[0]) {
        assert ([s[0]] + Filter(s[1..], p))[1..] == Filter(s[1..], p);
      } else if p(c) {
      }
    }
  }

  /** Selecting and sorting commute: a group keeps the relative order it had before the sort. */
  lemma {:induction false} FilterSort(s: seq<Command>, p: Command -> bool)
    ensures Filter(Sort(s), p) == Sort(Filter(s, p))
  {
    if s != [] {
      FilterSort(s[1..], p);
      SortSorted(s[1..]);
      FilterInsert(s[0], Sort(s[1..]), p);
      if p(s[0]) {
        assert ([s[0]] + Filter(s[1..], p))[1..] == Filter(s[1..], p);
      }
    }
  }

  lemma {:induction false} SortOfSorted(s: seq<Command>)
    requires Sorted(s)
    ensures Sort(s) == s
  {
    if s != [] {
      SortOfSorted(s[1..]);
      assert s == [s[0]] + s[1..];
    }
  }

  /** Stability: commands of equal order come out in the order they went in. */
  lemma {:induction false} SortStable(s: seq<Command>, order: int)
    ensures Filter(Sort(s), (c: Command) => c.order == order) == Filter(s, (c: Command) => c.order == order)
  {
    var p := (c: Command) => c.order == order;
    FilterSort(s, p);
    var r := Filter(s, p);
    assert forall i :: 0 <= i < |r| ==> r[i] in r && p(r[i]);
    SortOfSorted(r);
  }

  // ---------------------------------------------------------------------------------------------
  // Command nodes

  function MaxOrder(s: seq<Command>): (m: int)
    requires s != []
    ensures forall c :: c in s ==> c.order <= m
    ensures exists c :: c in s && c.order == m
  {
    if |s| == 1 then s[0].order
    else
      var m := MaxOrder(s[1..]);
      if s[0].order > m then s[0].order else m
  }

  function InferredOrder(previous: Option<seq<Command>>): int {
    if previous.None? || previous.value == [] then 0 else MaxOrder(previous.value) + 100
  }

  /** SSHCommandNode.build and its siblings: copy the previous commands, append, sort. */
  function BuildNode(draft: Command, previous: Option<seq<Command>>): seq<Command> {
    var commands := if previous.Some? then previous.value else [];
    Sort(commands + [draft.(order := InferredOrder(previous))])
  }

  /** The value at the end of a chain of nodes, the first of which has no predecessor. */
  function Chain(drafts: seq<Command>): Option<seq<Command>> {
    if drafts == [] then None
    else Some(BuildNode(drafts[|drafts| - 1], Chain(drafts[..|drafts| - 1])))
  }

  /** The same commands with the orders 0, 100, 200, ... */
  function Numbered(drafts: seq<Command>): (r: seq<Command>)
    ensures |r| == |drafts|
  {
    if drafts == [] then []
    else var n := |drafts| - 1; Numbered(drafts[..n]) + [drafts[n].(order := 100 * n)]
  }

  lemma {:induction false} NumberedAt(drafts: seq<Command>, i: nat)
    requires i < |drafts|
    ensures Numbered(drafts)[i] == drafts[i].(order := 100 * i)
    decreases |drafts|
  {
    var n := |drafts| - 1;
    if i < n {
      NumberedAt(drafts[..n], i);
    }
  }

  lemma {:induction false} NumberedSorted(drafts: seq<Command>)
    ensures Sorted(Numbered(drafts))
    ensures drafts != [] ==> MaxOrder(Numbered(drafts)) == 100 * (|drafts| - 1)
  {
    var s := Numbered(drafts);
    forall i | 0 <= i < |s| ensures s[i].order == 100 * i {
      NumberedAt(drafts, i);
    }
    if drafts != [] {
      assert s[|s| - 1] in s;
    }
  }

  lemma {:induction false} NumberedSnoc(front: seq<Command>, draft: Command)
    ensures Numbered(front + [draft]) == Numbered(front) + [draft.(order := 100 * |front|)]
  {
    var all := front + [draft];
    assert all[..|front|] == front;
  }

  lemma {:induction false} BuildOnto(previous: seq<Command>, draft: Command)
    requires previous != [] && MaxOrder(previous) == 100 * (|previous| - 1)
    ensures BuildNode(draft, Some(previous)) == Sort(previous + [draft.(order := 100 * |previous|)])
  {
  }

  lemma {:induction false} NumberedIsSorted(drafts: seq<Command>)
    ensures Sort(Numbered(drafts)) == Numbered(drafts)
  {
    NumberedSorted(drafts);
    SortOfSorted(Numbered(drafts));
  }

  /** One more node on a numbered chain takes the next multiple of 100 and goes last. */
  lemma {:induction false} NextNode(front: seq<Command>, draft: Command)
    requires front != []
    ensures BuildNode(draft, Some(Numbered(front))) == Numbered(front + [draft])
  {
    assert MaxOrder(Numbered(front)) == 100 * (|front| - 1) by {
      NumberedSorted(front);
    }
    BuildOnto(Numbered(front), draft);
    NumberedSnoc(front, draft);
    NumberedIsSorted(front + [draft]);
  }

  lemma {:induction false} FirstNode(draft: Command)
    ensures BuildNode(draft, None) == Numbered([draft])
  {
    var first := [draft.(order := 0)];
    assert Numbered([draft]) == Numbered([draft][..0]) + first;
    assert [draft][..0] == [];
    assert [] + first == first;
    SortOfSorted(first);
  }

  lemma {:induction false} ChainStep(front: seq<Command>, draft: Command)
    ensures Chain(front + [draft]) == Some(BuildNode(draft, Chain(front)))
  {
    assert (front + [draft])[..|front|] == front;
  }

  /** A chain of k nodes holds its commands in chain order, numbered 0, 100, ..., 100 (k - 1), and sorting it again
      changes nothing. */
  lemma {:induction false} ChainOrder(drafts: seq<Command>)
    requires drafts != []
    ensures Chain(drafts) == Some(Numbered(drafts))
    ensures Sort(Numbered(drafts)) == Numbered(drafts)
    decreases |drafts|
  {
    var front, last := drafts[..|drafts| - 1], drafts[|drafts| - 1];
    assert front + [last] == drafts;
    NumberedIsSorted(drafts);
    ChainStep(front, last);
    if front == [] {
      FirstNode(last);
    } else {
      ChainOrder(front);
      NextNode(front, last);
    }
  }
}
