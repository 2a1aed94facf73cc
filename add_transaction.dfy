/**
 * `AddTransactionViewModel`: the manual-entry screen. The category list
 * and the save call belong to the repositories; their outcomes are inputs.
 */
module AddTransaction {
  import opened Common

  /** `Result<Unit>`: success, or a failure with the exception's message. */
  datatype SaveResult = Saved | SaveFailed(message: Option<string>)

  /**
   * The record sent for a manual entry: no id, no user, no contact or
   * account, and the description doubling as the provider.
   */
  function ManualTransaction(amount: real, description: string, date: Date, isIncome: bool,
                             categoryId: Option<string>): (r: Transaction)
    ensures r.id.None? && r.userId.None? && r.contactName.None? && r.accountInfo.None?
    ensures r.description == Some(description) && r.provider == r.description
    ensures r.amount == amount && r.date == date && r.isIncome == isIncome && r.categoryId == categoryId
  {
    Transaction(None, None, date, amount, isIncome, Some(description), Some(description), None, None, categoryId)
  }

  /** The fields the form fills in can be read back from the record sent. */
  lemma ManualTransactionInjective(a1: real, d1: string, t1: Date, i1: bool, c1: Option<string>,
                                   a2: real, d2: string, t2: Date, i2: bool, c2: Option<string>)
    requires ManualTransaction(a1, d1, t1, i1, c1) == ManualTransaction(a2, d2, t2, i2, c2)
    ensures a1 == a2 && d1 == d2 && t1 == t2 && i1 == i2 && c1 == c2
  {
    var r1 := ManualTransaction(a1, d1, t1, i1, c1);
    var r2 := ManualTransaction(a2, d2, t2, i2, c2);
    assert r1.description == r2.description;
  }

  class AddTransactionViewModel {
    var categories: seq<Category>
    var isSaving: bool
    var saveResult: Option<SaveResult>

    /** `init` loads the categories; `loaded` is `None` when the repository threw, which keeps the list empty. */
    constructor (loaded: Option<seq<Category>>)
      ensures categories == (if loaded.Some? then loaded.value else [])
      ensures !isSaving && saveResult.None?
    {
      categories := if loaded.Some? then loaded.value else [];
      isSaving := false;
      saveResult := None;
    }

    /**
     * `addManualTransaction`: ignored while a save is in progress;
     * otherwise the record is sent (`sent`) and the save's result stored.
     * `repositoryResult` is `SaveFailed` when the call threw as well.
     */
    method AddManualTransaction(amount: real, description: string, date: Date, isIncome: bool,
                                categoryId: Option<string>, repositoryResult: SaveResult)
      returns (sent: Option<Transaction>)
      modifies this
      ensures old(isSaving) ==> sent.None? && isSaving && saveResult == old(saveResult)
      ensures !old(isSaving) ==> sent == Some(ManualTransaction(amount, description, date, isIncome, categoryId))
                                 && !isSaving && saveResult == Some(repositoryResult)
      ensures categories == old(categories)
    {
      if isSaving {
        return None;
      }
      isSaving := true;
      saveResult := None;
      var newTransaction := ManualTransaction(amount, description, date, isIncome, categoryId);
      sent := Some(newTransaction);
      saveResult := Some(repositoryResult);
      isSaving := false;
    }

    method ClearSaveResult()
      modifies this
      ensures saveResult.None? && isSaving == old(isSaving) && categories == old(categories)
    {
      saveResult := None;
    }
  }
}
