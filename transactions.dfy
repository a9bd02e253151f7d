/**
 The XP transaction records that the profile query returns (`xpTransactions`,
 ordered by creation time) and the largest amount among them.
 */
module Transactions {

  /** The `object` a transaction was earned on: its `type` tag and its `name`. */
  datatype TxObject = TxObject(kind: string, name: string)

  /** One XP transaction: `amount`, `path`, `createdAt` and `object`. */
  datatype Transaction = Transaction(amount: nat, path: string, createdAt: string, obj: TxObject)

  function Max(a: nat, b: nat): nat {
    if a < b then b else a
  }

  /**
   `Math.max(...data.map((d) => d.amount), 0)`: the largest amount, or 0 when
   there is none. It bounds every amount and is either 0 or one of them.
   */
  function MaxAmount(txs: seq<Transaction>): (m: nat)
    ensures forall i :: 0 <= i < |txs| ==> txs[i].amount <= m
    ensures m == 0 || exists i :: 0 <= i < |txs| && txs[i].amount == m
  {
    if txs == [] then 0
    else
      var rest := MaxAmount(txs[1..]);
      assert forall i :: 1 <= i < |txs| ==> txs[i] == txs[1..][i - 1];
      Max(txs[0].amount, rest)
  }

  /** Every amount is 0 exactly when the largest one is. */
  lemma MaxAmountZero(txs: seq<Transaction>)
    ensures MaxAmount(txs) == 0 <==> forall i :: 0 <= i < |txs| ==> txs[i].amount == 0
  {
  }
}
