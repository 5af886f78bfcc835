/** The errors the control and filter packages return. */
module Errors {

  datatype Error =
    | InvalidMeasurement
    | InvalidSetpoint
    | OutdatedMeasurement
    | InvalidLimits
    | NegativeIClamp
    | InvalidModel
    | UnknownFilter(kind: string)
}
