/**
 * A trade event (`Transaction` in src/models/transaction.rs). The timestamp is
 * supplied by the caller, in nanoseconds since the Unix epoch; prices and
 * volumes are exact reals.
 */
module TransactionModel {

  datatype Transaction = Transaction(
    token: string,
    price: real,
    volume: real,
    timestamp: int,
    isBuy: bool)
}
