/**
 * The debt list editor (components/DebtManager.tsx): the same handlers as
 * the asset editor, over debts. Removal and field updates are
 * Ledger.RemoveById and Ledger.UpdateById.
 */
module DebtManager {
  import opened Types
  import opened Ledger
  import opened Engine

  /** The entry `handleAddDebt` appends; its id is `Date.now()`, passed in. */
  function NewDebt(id: string): Debt {
    Holding(id, "新负债", 0.0, 5.0)
  }

  /** `handleAddDebt`: the old list, unchanged, followed by one new debt of amount 0 at 5%. */
  function AddDebt(debts: seq<Debt>, id: string): (r: seq<Debt>)
    ensures |r| == |debts| + 1
    ensures r[..|debts|] == debts
    ensures r[|debts|].id == id && r[|debts|].name == "新负债"
    ensures r[|debts|].amount == 0.0 && r[|debts|].rate == 5.0
  {
    assert (debts + [NewDebt(id)])[..|debts|] == debts;
    debts + [NewDebt(id)]
  }

  /** A new debt of amount 0 leaves every figure of the engine's result as it was. */
  lemma AddDebtKeepsResult(assets: seq<Asset>, debts: seq<Debt>, id: string, fin: FinancialState,
                           algo: Algorithm, L: real, exp: real -> real)
    requires L > 0.0 && ExpLaws(exp)
    ensures Calculate(assets, AddDebt(debts, id), fin, algo, L, exp) == Calculate(assets, debts, fin, algo, L, exp)
  {
    var r := AddDebt(debts, id);
    assert r[..|r| - 1] == debts;
  }

  /** Removing a just-added debt by its id, when that id was not in use, gives back the old list. */
  lemma RemoveUndoesAddDebt(debts: seq<Debt>, id: string)
    requires forall d :: d in debts ==> d.id != id
    ensures RemoveById(AddDebt(debts, id), id) == debts
  {
    RemoveUndoesAppend(debts, NewDebt(id));
  }

  /** Renaming a debt leaves every figure of the engine's result as it was. */
  lemma RenameDebtKeepsResult(assets: seq<Asset>, debts: seq<Debt>, id: string, name: string,
                              fin: FinancialState, algo: Algorithm, L: real, exp: real -> real)
    requires L > 0.0 && ExpLaws(exp)
    ensures Calculate(assets, UpdateById(debts, id, Rename(name)), fin, algo, L, exp)
         == Calculate(assets, debts, fin, algo, L, exp)
  {
    var renamed := UpdateById(debts, id, Rename(name));
    RenameKeepsSums(debts, id, name);
    assert MonthlyYield(renamed) == MonthlyYield(debts);
  }
}
