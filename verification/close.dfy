/** The Close handler: the owner, having signed and passed `check_owner`, closes the fund to deposits. */
module CloseHandler {
  import opened Results
  import opened Words
  import opened Errors
  import opened FundAccount
  import opened AccessControl
  import opened Effects

  datatype Accounts = Accounts(fund: Pubkey, owner: Pubkey, ownerSigned: bool)

  function Handler(f: Fund, a: Accounts, checkOwner: Gate): (r: Result<Step, Failure>)
    ensures !a.ownerSigned ==> r == Err(Reject(Unauthorized))
    ensures a.ownerSigned && checkOwner.Deny? ==> r == Err(Fail(checkOwner.error))
    ensures r.Ok? <==> a.ownerSigned && checkOwner.Pass?
    ensures r.Ok? ==> !r.value.fund.open && r.value.effects == []
    ensures r.Ok? ==> SameExcept(f, r.value.fund, {OpenFlag})
  {
    if !a.ownerSigned then Err(Reject(Unauthorized))
    else if checkOwner.Deny? then Err(Fail(checkOwner.error))
    else Ok(Step(CloseFund(f), []))
  }

  /** Closing a closed fund succeeds again and changes nothing. */
  lemma CloseTwice(f: Fund, a: Accounts, checkOwner: Gate)
    requires Handler(f, a, checkOwner).Ok?
    ensures var g := Handler(f, a, checkOwner).value.fund;
      Handler(g, a, checkOwner) == Ok(Step(g, []))
  {
    var g := Handler(f, a, checkOwner).value.fund;
    assert CloseFund(g) == g;
  }
}
