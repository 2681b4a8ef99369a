/**
 * The ledger's one persisted entity, the form input it is created from, and the two
 * invariants every record made by the form keeps.
 */
module Records {

  datatype Option<T> = None | Some(value: T)

  /** Direction of the movement. Every branch of the ledger tests `type === 'in'`, so a stored
      type other than "in" behaves as `Out` everywhere. */
  datatype TxType = In | Out

  /** An amount of money in paise (hundredths of a rupee). */
  type Money = int

  const CASH: string := "Cash"
  const UPI: string := "UPI"
  const CARD: string := "Card"
  const NO_DESCRIPTION: string := "No description"

  /** One ledger record. `date` is the `toISOString()` text of its creation instant. */
  datatype Tx = Tx(id: int, date: string, description: string, amount: Money, txType: TxType, mode: string)

  /** What the entry form hands over: the description field as typed, the parsed amount
      (`None` when the field does not parse as a number), and the toggles' type and mode. */
  datatype Form = Form(description: string, amount: Option<Money>, txType: TxType, mode: string)

  /** The record invariants: a positive amount, and money going out is always cash. */
  predicate ValidTx(t: Tx) {
    t.amount > 0 && (t.txType == Out ==> t.mode == CASH)
  }

  predicate AllValid(txs: seq<Tx>) {
    forall i :: 0 <= i < |txs| ==> ValidTx(txs[i])
  }

  predicate AllPositive(txs: seq<Tx>) {
    forall i :: 0 <= i < |txs| ==> txs[i].amount > 0
  }

  /** Every `In` record is paid by one of the three modes the form offers. */
  predicate KnownModes(txs: seq<Tx>) {
    forall i :: 0 <= i < |txs| ==> txs[i].txType == In ==> txs[i].mode in {CASH, UPI, CARD}
  }
}
