/**
 * The transaction store: the module-level `transactions` array of the ledger as a `Ledger`
 * object with a sequence field, the creation rule for a new record, and removal by id.
 * The clock (`Date.now()`, `new Date().toISOString()`) is a parameter of the operations.
 */
module Store {
  import opened Text
  import opened Records

  /** The stored description: the trimmed input, or the placeholder when nothing but white space was typed. */
  function Describe(raw: string): (r: string)
    ensures AllSpace(raw) ==> r == NO_DESCRIPTION
    ensures !AllSpace(raw) ==> r == Trim(raw) && r != []
    ensures r != []
  {
    TrimEmptyIff(raw);
    var t := Trim(raw);
    if t == [] then NO_DESCRIPTION else t
  }

  predicate ValidAmount(amount: Option<Money>) {
    amount.Some? && amount.value > 0
  }

  /** The record a submission creates, or `None` when the amount is missing, zero or negative. */
  function NewRecord(form: Form, id: int, date: string): (r: Option<Tx>)
    ensures r.Some? <==> ValidAmount(form.amount)
    ensures r.Some? ==> ValidTx(r.value)
    ensures r.Some? ==> r.value.id == id && r.value.date == date && r.value.amount == form.amount.value
    ensures r.Some? ==> r.value.txType == form.txType && r.value.description == Describe(form.description)
    ensures r.Some? && form.txType == In ==> r.value.mode == form.mode
  {
    if !ValidAmount(form.amount) then None
    else Some(Tx(id, date, Describe(form.description), form.amount.value, form.txType,
                 if form.txType == In then form.mode else CASH))
  }

  /** `txs.filter(tx => tx.id !== id)`. */
  function Remaining(txs: seq<Tx>, id: int): (r: seq<Tx>)
    ensures |r| <= |txs|
    ensures forall t :: t in r <==> t in txs && t.id != id
  {
    if txs == [] then []
    else (if txs[0].id != id then [txs[0]] else []) + Remaining(txs[1..], id)
  }

  /** Filtering keeps relative order: it distributes over concatenation. */
  lemma {:induction false} RemainingConcat(a: seq<Tx>, b: seq<Tx>, id: int)
    ensures Remaining(a + b, id) == Remaining(a, id) + Remaining(b, id)
  {
    if a == [] {
      assert a + b == b;
    } else {
      assert (a + b)[1..] == a[1..] + b;
      RemainingConcat(a[1..], b, id);
    }
  }

  /** Deleting an id that no record carries changes nothing. */
  lemma {:induction false} RemainingAbsent(txs: seq<Tx>, id: int)
    requires forall i :: 0 <= i < |txs| ==> txs[i].id != id
    ensures Remaining(txs, id) == txs
  {
    if txs != [] {
      RemainingAbsent(txs[1..], id);
    }
  }

  /** Deleting twice is deleting once. */
  lemma RemainingIdempotent(txs: seq<Tx>, id: int)
    ensures Remaining(Remaining(txs, id), id) == Remaining(txs, id)
  {
    var r := Remaining(txs, id);
    forall i | 0 <= i < |r| ensures r[i].id != id {
      assert r[i] in r;
    }
    RemainingAbsent(r, id);
  }

  /** Removing records keeps the record invariants of those that stay. */
  lemma RemainingValid(txs: seq<Tx>, id: int)
    requires AllValid(txs)
    ensures AllValid(Remaining(txs, id))
  {
    var r := Remaining(txs, id);
    forall i | 0 <= i < |r| ensures ValidTx(r[i]) {
      assert r[i] in txs;
    }
  }

  datatype AddOutcome = Added(record: Tx) | Rejected(message: string)

  const INVALID_AMOUNT: string := "Please enter a valid amount."

  /** The in-memory store. Its initial contents are whatever the persistence layer handed back. */
  class Ledger {
    var transactions: seq<Tx>

    constructor (stored: seq<Tx>)
      ensures transactions == stored
    {
      transactions := stored;
    }

    /** Validates the form, then appends exactly one record at the end, or rejects and changes nothing. */
    method AddTransaction(form: Form, id: int, date: string) returns (outcome: AddOutcome)
      modifies this
      ensures outcome.Rejected? <==> !ValidAmount(form.amount)
      ensures outcome.Rejected? ==> outcome.message == INVALID_AMOUNT && transactions == old(transactions)
      ensures outcome.Added? ==> NewRecord(form, id, date) == Some(outcome.record)
      ensures outcome.Added? ==> transactions == old(transactions) + [outcome.record]
      ensures AllValid(old(transactions)) ==> AllValid(transactions)
    {
      var description := Trim(form.description);
      if description == "" {
        description := NO_DESCRIPTION;
      }
      if form.amount.None? || form.amount.value <= 0 {
        return Rejected(INVALID_AMOUNT);
      }
      var record := Tx(id, date, description, form.amount.value, form.txType,
                       if form.txType == In then form.mode else CASH);
      transactions := transactions + [record];
      outcome := Added(record);
      assert AllValid(old(transactions)) ==> AllValid(transactions) by {
        if AllValid(old(transactions)) {
          forall i | 0 <= i < |transactions| ensures ValidTx(transactions[i]) {
            if i < |old(transactions)| { assert transactions[i] == old(transactions)[i]; }
          }
        }
      }
    }

    /** Keeps exactly the records whose id differs, in their original order. */
    method DeleteTransaction(id: int)
      modifies this
      ensures transactions == Remaining(old(transactions), id)
      ensures AllValid(old(transactions)) ==> AllValid(transactions)
    {
      transactions := Remaining(transactions, id);
      if AllValid(old(transactions)) {
        RemainingValid(old(transactions), id);
      }
    }
  }
}
