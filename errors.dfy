/** The error values that the services, the strconv parser and the accrual client return. */
module Errors {

  datatype Error =
    /** service.ErrNumberIsNotCorrect: the order number fails the Luhn check. */
    | NumberIsNotCorrect
    /** service.ErrOrderAlreadyExists: the same user already registered this number. */
    | OrderAlreadyExists
    /** service.ErrOrderAlreadyExistsForAnotherUser */
    | OrderAlreadyExistsForAnotherUser
    /** service.ErrInvalidWithdrawSum: the balance does not cover the withdrawal. */
    | InvalidWithdrawSum
    /** Any other failure reported by the database. */
    | Storage(reason: string)
    /** strconv.NumError raised by Atoi on the given input. */
    | NumError(num: string)
    /** An error built from a fixed message (errors.New, fmt.Errorf). */
    | Message(text: string)
}
