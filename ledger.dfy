/**
 * Lists of holdings as the source treats them: folded into sums with
 * `reduce`, filtered with `filter`, edited entry by entry with `map`.
 * AssetManager and DebtManager both edit their lists through these
 * operations; the engine and the debt analysis sum them.
 */
module Ledger {
  import opened Wrappers
  import opened Types

  /**
   * `s.reduce((sum, h) => sum + h.amount, 0)`: folded from the left. The
   * order of summation does not matter: the same sum is the first amount
   * plus the sum of the rest.
   */
  function TotalAmount(s: seq<Holding>): (t: real)
    ensures s != [] ==> t == s[0].amount + TotalAmount(s[1..])
  {
    if s == [] then 0.0
    else
      assert |s| > 1 ==> s[..|s| - 1][1..] == s[1..][..|s| - 2];
      TotalAmount(s[..|s| - 1]) + s[|s| - 1].amount
  }

  /**
   * `s.reduce((sum, h) => sum + h.amount * (h.rate / 100), 0)`: simple
   * annual interest or yield, folded from the left; it too is the first
   * entry's yield plus the yield of the rest.
   */
  function AnnualYield(s: seq<Holding>): (y: real)
    ensures s != [] ==> y == Yield(s[0]) + AnnualYield(s[1..])
  {
    if s == [] then 0.0
    else
      assert |s| > 1 ==> s[..|s| - 1][1..] == s[1..][..|s| - 2];
      AnnualYield(s[..|s| - 1]) + Yield(s[|s| - 1])
  }

  /** One entry's yearly yield or interest: `h.amount * (h.rate / 100)`. */
  function Yield(h: Holding): real {
    h.amount * (h.rate / 100.0)
  }

  /** Sums split over a concatenation. */
  lemma {:induction false} TotalAmountAppend(a: seq<Holding>, b: seq<Holding>)
    ensures TotalAmount(a + b) == TotalAmount(a) + TotalAmount(b)
    decreases |b|
  {
    if b != [] {
      assert (a + b)[..|a + b| - 1] == a + b[..|b| - 1];
      TotalAmountAppend(a, b[..|b| - 1]);
    } else {
      assert a + b == a;
    }
  }

  lemma {:induction false} AnnualYieldAppend(a: seq<Holding>, b: seq<Holding>)
    ensures AnnualYield(a + b) == AnnualYield(a) + AnnualYield(b)
    decreases |b|
  {
    if b != [] {
      assert (a + b)[..|a + b| - 1] == a + b[..|b| - 1];
      AnnualYieldAppend(a, b[..|b| - 1]);
    } else {
      assert a + b == a;
    }
  }

  /** Non-negative amounts give a non-negative total. */
  lemma {:induction false} TotalAmountNonNegative(s: seq<Holding>)
    requires forall h :: h in s ==> h.amount >= 0.0
    ensures TotalAmount(s) >= 0.0
    decreases |s|
  {
    if s != [] {
      assert forall h :: h in s[..|s| - 1] ==> h in s;
      TotalAmountNonNegative(s[..|s| - 1]);
      assert s[|s| - 1] in s;
    }
  }

  /** `s.filter(keep)`: the entries that satisfy `keep`, in their original order. */
  function Filter<T(!new)>(s: seq<T>, keep: T -> bool): (r: seq<T>)
    ensures |r| <= |s|
    ensures forall x :: x in r <==> x in s && keep(x)
  {
    if s == [] then []
    else (if keep(s[0]) then [s[0]] else []) + Filter(s[1..], keep)
  }

  /** Filtering a concatenation filters each part and keeps their order. */
  lemma {:induction false} FilterAppend<T(!new)>(a: seq<T>, b: seq<T>, keep: T -> bool)
    ensures Filter(a + b, keep) == Filter(a, keep) + Filter(b, keep)
    decreases |a|
  {
    if a == [] {
      assert a + b == b;
    } else {
      assert (a + b)[0] == a[0];
      assert (a + b)[1..] == a[1..] + b;
      FilterAppend(a[1..], b, keep);
    }
  }

  /** A list all of whose entries are kept is returned as it is. */
  lemma {:induction false} FilterKeepsAll<T(!new)>(s: seq<T>, keep: T -> bool)
    requires forall x :: x in s ==> keep(x)
    ensures Filter(s, keep) == s
    decreases |s|
  {
    if s != [] {
      assert s[0] in s;
      assert forall x :: x in s[1..] ==> x in s;
      FilterKeepsAll(s[1..], keep);
      assert [s[0]] + s[1..] == s;
    }
  }

  /** Filtering twice by the same test is filtering once. */
  lemma FilterIdempotent<T(!new)>(s: seq<T>, keep: T -> bool)
    ensures Filter(Filter(s, keep), keep) == Filter(s, keep)
  {
    FilterKeepsAll(Filter(s, keep), keep);
  }

  /**
   * Splitting a list by a test and its negation splits its total: the kept
   * and the dropped amounts add up to the whole.
   */
  lemma {:induction false} FilterPartitionsTotal(s: seq<Holding>, keep: Holding -> bool, drop: Holding -> bool)
    requires forall h :: drop(h) == !keep(h)
    ensures TotalAmount(Filter(s, keep)) + TotalAmount(Filter(s, drop)) == TotalAmount(s)
    decreases |s|
  {
    if s != [] {
      var head, rest := s[0], s[1..];
      assert s == [head] + rest;
      FilterPartitionsTotal(rest, keep, drop);
      TotalAmountAppend([head], rest);
      assert TotalAmount([head]) == head.amount by {
        assert [head][..0] == [];
      }
      var k := if keep(head) then [head] else [];
      var d := if drop(head) then [head] else [];
      assert Filter(s, keep) == k + Filter(rest, keep);
      assert Filter(s, drop) == d + Filter(rest, drop);
      TotalAmountAppend(k, Filter(rest, keep));
      TotalAmountAppend(d, Filter(rest, drop));
      assert TotalAmount(k) + TotalAmount(d) == head.amount by {
        assert [head][..0] == [];
      }
    }
  }

  /** The test `h.id !== id` of the remove handlers. */
  function IdIsNot(id: string): Holding -> bool {
    (h: Holding) => h.id != id
  }

  /** The test `h.id === id`. */
  function IdIs(id: string): Holding -> bool {
    (h: Holding) => h.id == id
  }

  /** `s.filter((h) => h.id !== id)`: drops every entry carrying `id`, keeps the rest in order. */
  function RemoveById(s: seq<Holding>, id: string): (r: seq<Holding>)
    ensures forall h :: h in r <==> h in s && h.id != id
    ensures |r| <= |s|
  {
    Filter(s, IdIsNot(id))
  }

  /** Removing the same id twice is removing it once. */
  lemma RemoveIdempotent(s: seq<Holding>, id: string)
    ensures RemoveById(RemoveById(s, id), id) == RemoveById(s, id)
  {
    FilterIdempotent(s, IdIsNot(id));
  }

  /** Removing an id that no entry carries leaves the list unchanged. */
  lemma RemoveAbsent(s: seq<Holding>, id: string)
    requires forall h :: h in s ==> h.id != id
    ensures RemoveById(s, id) == s
  {
    FilterKeepsAll(s, IdIsNot(id));
  }

  /** Removing a freshly appended entry by its id restores the list it was appended to. */
  lemma RemoveUndoesAppend(s: seq<Holding>, h: Holding)
    requires forall x :: x in s ==> x.id != h.id
    ensures RemoveById(s + [h], h.id) == s
  {
    FilterAppend(s, [h], IdIsNot(h.id));
    RemoveAbsent(s, h.id);
    assert Filter([h], IdIsNot(h.id)) == [] by {
      assert [h][1..] == [];
    }
  }

  /** Removal takes off exactly the amounts of the entries that carry the id. */
  lemma RemoveTotal(s: seq<Holding>, id: string)
    ensures TotalAmount(RemoveById(s, id)) == TotalAmount(s) - TotalAmount(Filter(s, IdIs(id)))
  {
    FilterPartitionsTotal(s, IdIsNot(id), IdIs(id));
  }

  /** The fields the managers' inputs edit: the name, the amount or the rate. */
  datatype Edit = Rename(name: string) | SetAmount(amount: real) | SetRate(rate: real)

  /** `{ ...h, [field]: value }`: the edited field takes the new value, the others keep theirs. */
  function ApplyEdit(h: Holding, e: Edit): (r: Holding)
    ensures r.id == h.id
    ensures r.name == (if e.Rename? then e.name else h.name)
    ensures r.amount == (if e.SetAmount? then e.amount else h.amount)
    ensures r.rate == (if e.SetRate? then e.rate else h.rate)
  {
    match e
    case Rename(n) => h.(name := n)
    case SetAmount(a) => h.(amount := a)
    case SetRate(x) => h.(rate := x)
  }

  /**
   * `s.map((h) => h.id === id ? { ...h, [field]: value } : h)`: same length
   * and order; entries carrying `id` get the edit, all others are unchanged.
   */
  function UpdateById(s: seq<Holding>, id: string, e: Edit): (r: seq<Holding>)
    ensures |r| == |s|
    ensures forall i :: 0 <= i < |s| ==> r[i] == (if s[i].id == id then ApplyEdit(s[i], e) else s[i])
  {
    if s == [] then []
    else [if s[0].id == id then ApplyEdit(s[0], e) else s[0]] + UpdateById(s[1..], id, e)
  }

  /** Updating an id that no entry carries leaves the list unchanged. */
  lemma UpdateAbsent(s: seq<Holding>, id: string, e: Edit)
    requires forall h :: h in s ==> h.id != id
    ensures UpdateById(s, id, e) == s
  {
  }

  /** An update never touches what a removal of the same id keeps. */
  lemma {:induction false} RemoveAfterUpdate(s: seq<Holding>, id: string, e: Edit)
    ensures RemoveById(UpdateById(s, id, e), id) == RemoveById(s, id)
    decreases |s|
  {
    if s != [] {
      var u := UpdateById(s, id, e);
      assert u == [u[0]] + UpdateById(s[1..], id, e);
      assert u[0].id == s[0].id;
      RemoveAfterUpdate(s[1..], id, e);
    }
  }

  /** Renaming entries leaves the total amount unchanged. */
  lemma {:induction false} RenameKeepsTotal(s: seq<Holding>, id: string, name: string)
    ensures TotalAmount(UpdateById(s, id, Rename(name))) == TotalAmount(s)
    decreases |s|
  {
    if s != [] {
      var u := UpdateById(s, id, Rename(name));
      assert u[1..] == UpdateById(s[1..], id, Rename(name));
      RenameKeepsTotal(s[1..], id, name);
    }
  }

  /** Renaming entries leaves the yield unchanged. */
  lemma {:induction false} RenameKeepsYield(s: seq<Holding>, id: string, name: string)
    ensures AnnualYield(UpdateById(s, id, Rename(name))) == AnnualYield(s)
    decreases |s|
  {
    if s != [] {
      var u := UpdateById(s, id, Rename(name));
      assert u[1..] == UpdateById(s[1..], id, Rename(name));
      assert Yield(u[0]) == Yield(s[0]);
      RenameKeepsYield(s[1..], id, name);
    }
  }

  /** Renaming entries changes neither the total amount nor the yield of the list. */
  lemma RenameKeepsSums(s: seq<Holding>, id: string, name: string)
    ensures TotalAmount(UpdateById(s, id, Rename(name))) == TotalAmount(s)
    ensures AnnualYield(UpdateById(s, id, Rename(name))) == AnnualYield(s)
  {
    RenameKeepsTotal(s, id, name);
    RenameKeepsYield(s, id, name);
  }

  /**
   * An amount input, `parseFloat(value) || 0`, edits the entries carrying
   * the id: a number sets their amount, a non-numeric input sets it to 0,
   * and every other entry and field is kept.
   */
  lemma AmountInputEdit(s: seq<Holding>, id: string, parsed: Option<real>)
    ensures var r := UpdateById(s, id, SetAmount(NumberOrZero(parsed)));
      forall i :: 0 <= i < |s| ==>
        r[i] == (if s[i].id == id then s[i].(amount := if parsed.Some? then parsed.value else 0.0) else s[i])
  {
  }

  /** A rate input, `parseFloat(value) || 0`: a number sets the rate, a non-numeric input sets it to 0. */
  lemma RateInputEdit(s: seq<Holding>, id: string, parsed: Option<real>)
    ensures var r := UpdateById(s, id, SetRate(NumberOrZero(parsed)));
      forall i :: 0 <= i < |s| ==>
        r[i] == (if s[i].id == id then s[i].(rate := if parsed.Some? then parsed.value else 0.0) else s[i])
  {
  }
}
