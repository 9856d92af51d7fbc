/** The errors the pipeline raises, one constructor per exception it can signal. */
module Exceptions {

  datatype Error =
    | LeadNotFound                      // LeadNotFoundException
    | LeadAlreadyExists                 // LeadAlreadyExistsException
    | InsightAlreadyExists              // InsightAlreadyExistsException
    | InvalidLeadData(message: string)  // InvalidLeadDataException(message)
    | InvalidInsightData(message: string)
    | ValueError(message: string)       // ValueError raised by the repositories with this message
    | NotAnEnumMember(enumName: string) // ValueError from looking an enumeration member up by value
    | NotAFloat                         // float(x) raising TypeError or ValueError
    | UnknownColumn                     // TypeError from a model constructor given an unknown keyword
    | DatabaseError                     // the database rejecting a flushed row (a constraint or a column type)
}
