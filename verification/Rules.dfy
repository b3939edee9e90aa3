/** How the kernel's rule list behaves under add, delete and drain. */
module Rules {
  import opened Network

  ghost predicate Sorted(rules: seq<Rule>) {
    forall i, j :: 0 <= i < j < |rules| ==> rules[i].priority <= rules[j].priority
  }

  lemma {:induction false} InsertMembers(rules: seq<Rule>, r: Rule)
    ensures forall x :: x in InsertRule(rules, r) <==> x == r || x in rules
  {
    if rules != [] && rules[0].priority <= r.priority {
      InsertMembers(rules[1..], r);
      assert rules == [rules[0]] + rules[1..];
    }
  }

  lemma {:induction false} InsertSorted(rules: seq<Rule>, r: Rule)
    requires Sorted(rules)
    ensures Sorted(InsertRule(rules, r))
  {
    if rules != [] && rules[0].priority <= r.priority {
      InsertSorted(rules[1..], r);
      InsertMembers(rules[1..], r);
      var t := InsertRule(rules[1..], r);
      forall i | 0 <= i < |t| ensures rules[0].priority <= t[i].priority {
        assert t[i] in t;
      }
    }
  }

  lemma {:induction false} RemoveMembers(rules: seq<Rule>, sel: Selector)
    ensures forall x :: x in RemoveFirst(rules, sel) ==> x in rules
    ensures forall x :: x in rules && !Selects(sel, x) ==> x in RemoveFirst(rules, sel)
  {
    if rules != [] {
      assert rules == [rules[0]] + rules[1..];
      if !Selects(sel, rules[0]) {
        RemoveMembers(rules[1..], sel);
      }
    }
  }

  lemma {:induction false} RemoveSorted(rules: seq<Rule>, sel: Selector)
    requires Sorted(rules)
    ensures Sorted(RemoveFirst(rules, sel))
  {
    if rules != [] && !Selects(sel, rules[0]) {
      RemoveSorted(rules[1..], sel);
      RemoveMembers(rules[1..], sel);
      var t := RemoveFirst(rules[1..], sel);
      forall i | 0 <= i < |t| ensures rules[0].priority <= t[i].priority {
        assert t[i] in t;
      }
    }
  }

  lemma {:induction false} DropMembers(rules: seq<Rule>, sel: Selector)
    ensures forall x :: x in Drop(rules, sel) <==> x in rules && !Selects(sel, x)
  {
    if rules != [] {
      DropMembers(rules[1..], sel);
      assert rules == [rules[0]] + rules[1..];
    }
  }

  lemma {:induction false} DropSorted(rules: seq<Rule>, sel: Selector)
    requires Sorted(rules)
    ensures Sorted(Drop(rules, sel))
  {
    if rules != [] {
      DropSorted(rules[1..], sel);
      DropMembers(rules[1..], sel);
      var t := Drop(rules[1..], sel);
      forall i | 0 <= i < |t| ensures rules[0].priority <= t[i].priority {
        assert t[i] in t;
      }
    }
  }

  /** Draining priorities low, low + 1, ..., high - 1 one after the other drops the band. */
  lemma {:induction false} DropBandStep(rules: seq<Rule>, low: nat, high: nat)
    requires low <= high + 1
    ensures Drop(Drop(rules, Band(low, high)), At(high + 1)) == Drop(rules, Band(low, high + 1))
  {
    if rules != [] {
      DropBandStep(rules[1..], low, high);
      var head := if Selects(Band(low, high), rules[0]) then [] else [rules[0]];
      DropConcat(head, Drop(rules[1..], Band(low, high)), At(high + 1));
      assert Drop(head, At(high + 1)) == if Selects(Band(low, high + 1), rules[0]) then [] else [rules[0]];
    }
  }

  lemma {:induction false} DropConcat(a: seq<Rule>, b: seq<Rule>, sel: Selector)
    ensures Drop(a + b, sel) == Drop(a, sel) + Drop(b, sel)
  {
    if a == [] {
      assert a + b == b;
    } else {
      assert (a + b)[1..] == a[1..] + b;
      DropConcat(a[1..], b, sel);
    }
  }

  /** A rule the selector matches can be inserted without changing what the selector spares. */
  lemma {:induction false} DropInsert(rules: seq<Rule>, r: Rule, sel: Selector)
    requires Selects(sel, r)
    ensures Drop(InsertRule(rules, r), sel) == Drop(rules, sel)
  {
    if rules != [] && rules[0].priority <= r.priority {
      DropInsert(rules[1..], r, sel);
    }
  }

  /** Deleting through `del` spares what `keep` spares, if the first rule `del` finds is one `keep` drops. */
  lemma {:induction false} DropRemove(rules: seq<Rule>, del: Selector, keep: Selector)
    requires forall r :: r in rules && Selects(del, r) ==> Selects(keep, r)
    ensures Drop(RemoveFirst(rules, del), keep) == Drop(rules, keep)
  {
    if rules != [] && !Selects(del, rules[0]) {
      DropRemove(rules[1..], del, keep);
    }
  }

  lemma {:induction false} DropDrop(rules: seq<Rule>, inner: Selector, outer: Selector)
    requires forall r :: Selects(inner, r) ==> Selects(outer, r)
    ensures Drop(Drop(rules, inner), outer) == Drop(rules, outer)
  {
    if rules != [] {
      DropDrop(rules[1..], inner, outer);
      DropConcat(if Selects(inner, rules[0]) then [] else [rules[0]], Drop(rules[1..], inner), outer);
    }
  }

  /** Deleting one match shortens the list by one, or finds nothing and changes nothing. */
  lemma {:induction false} RemoveLength(rules: seq<Rule>, sel: Selector)
    ensures (exists r :: r in rules && Selects(sel, r)) ==> |RemoveFirst(rules, sel)| == |rules| - 1
    ensures !(exists r :: r in rules && Selects(sel, r)) ==> RemoveFirst(rules, sel) == rules
  {
    if rules != [] {
      assert rules == [rules[0]] + rules[1..];
      RemoveLength(rules[1..], sel);
    }
  }

  lemma {:induction false} DropNothing(rules: seq<Rule>, sel: Selector)
    requires forall r :: r in rules ==> !Selects(sel, r)
    ensures Drop(rules, sel) == rules
  {
    if rules != [] {
      assert rules == [rules[0]] + rules[1..];
      DropNothing(rules[1..], sel);
    }
  }

  lemma {:induction false} RemoveNothing(rules: seq<Rule>, sel: Selector)
    requires forall r :: r in rules ==> !Selects(sel, r)
    ensures RemoveFirst(rules, sel) == rules
  {
    if rules != [] {
      RemoveNothing(rules[1..], sel);
    }
  }
}
