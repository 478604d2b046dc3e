/**
 * Report tables. A cell keeps the typed value it was built from; how a value
 * is printed (decimal digits, RFC 3339 dates, base58 addresses, padding) is
 * presentation and not modelled.
 */
module Table {
  import opened Ledger

  datatype Cell =
    | Text(text: string)
    | Int(n: int)
    | Dec(d: real)
    | Addr(address: Address)
    | Time(epoch: nat)

  type Row = seq<Cell>
}
