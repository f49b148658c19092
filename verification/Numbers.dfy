/** Numbers several modules share. */
module Numbers {
  const DAY_MS := 86_400_000
  const MAX_SAFE_INTEGER := 9_007_199_254_740_991

  function Min(x: int, y: int): int { if x <= y then x else y }
  function Max(x: int, y: int): int { if x >= y then x else y }
}

/** What a completed print owes the platform. */
module Commission {
  import opened Options

  datatype CommissionSnapshot = CommissionSnapshot(commissionPaise: int, shopFundedDiscountPaise: int)

  /** None is the RangeError. */
  function DeriveCommissionSnapshot(totalPaise: int, shopBasePaise: int): Option<CommissionSnapshot> {
    if totalPaise < 0 || shopBasePaise < 0 then None
    else if totalPaise >= shopBasePaise then Some(CommissionSnapshot(totalPaise - shopBasePaise, 0))
    else Some(CommissionSnapshot(0, shopBasePaise - totalPaise))
  }

  /** A total below the shop base owes nothing. */
  function CommissionFor(totalPaise: nat, shopBasePaise: nat): int {
    DeriveCommissionSnapshot(totalPaise, shopBasePaise).value.commissionPaise
  }
}
