/**
 * The asset list editor (components/AssetManager.tsx). Removal and field
 * updates are Ledger.RemoveById and Ledger.UpdateById; an amount or rate
 * input is coerced by Types.NumberOrZero before the edit
 * (Ledger.AmountInputEdit, Ledger.RateInputEdit).
 */
module AssetManager {
  import opened Types
  import opened Ledger
  import opened Engine

  /** The entry `handleAddAsset` appends; its id is `Date.now()`, passed in. */
  function NewAsset(id: string): Asset {
    Holding(id, "新资产", 0.0, 3.0)
  }

  /** `handleAddAsset`: the old list, unchanged, followed by one new asset of amount 0 at 3%. */
  function AddAsset(assets: seq<Asset>, id: string): (r: seq<Asset>)
    ensures |r| == |assets| + 1
    ensures r[..|assets|] == assets
    ensures r[|assets|].id == id && r[|assets|].name == "新资产"
    ensures r[|assets|].amount == 0.0 && r[|assets|].rate == 3.0
  {
    assert (assets + [NewAsset(id)])[..|assets|] == assets;
    assets + [NewAsset(id)]
  }

  /** A new asset of amount 0 changes neither the total nor the yield. */
  lemma AddAssetKeepsSums(assets: seq<Asset>, id: string)
    ensures TotalAmount(AddAsset(assets, id)) == TotalAmount(assets)
    ensures AnnualYield(AddAsset(assets, id)) == AnnualYield(assets)
  {
    var r := AddAsset(assets, id);
    assert r[..|r| - 1] == assets;
  }

  /** So adding an asset leaves every figure of the engine's result as it was. */
  lemma AddAssetKeepsResult(assets: seq<Asset>, id: string, debts: seq<Debt>, fin: FinancialState,
                            algo: Algorithm, L: real, exp: real -> real)
    requires L > 0.0 && ExpLaws(exp)
    ensures Calculate(AddAsset(assets, id), debts, fin, algo, L, exp) == Calculate(assets, debts, fin, algo, L, exp)
  {
    AddAssetKeepsSums(assets, id);
  }

  /** Removing a just-added asset by its id, when that id was not in use, gives back the old list. */
  lemma RemoveUndoesAddAsset(assets: seq<Asset>, id: string)
    requires forall a :: a in assets ==> a.id != id
    ensures RemoveById(AddAsset(assets, id), id) == assets
  {
    RemoveUndoesAppend(assets, NewAsset(id));
  }
}
