/**
 * The exceptions that the FactorAnalysis pipeline raises, as values.
 * Messages are not modelled, only which exception is raised.
 */
module Exceptions {

  datatype Error =
    /** `TypeError`: an argument is not a numpy array, `len(None)`, or arithmetic with `None` */
    | TypeError
    /** `NonSquareMatrix` (a `ValueError`): an association matrix whose two dimensions differ */
    | NonSquareMatrix
    /** `DimensionMismatch` (a `ValueError`): a noise matrix whose size differs from the data's */
    | DimensionMismatch
    /** `ValueError` from the label check: the number of labels differs from the number of features */
    | LabelCountMismatch
    /** `ValueError` from `add_noise_cov`: no covariance has been loaded yet */
    | DataNotLoaded
    /** `KeyError`: a key read from an options dictionary that was never written */
    | KeyError(key: string)
    /** `Exception`: a retention method name that is not recognised */
    | UnknownRetentionMethod(name: string)
    /** `Exception`: a rotation method name that is not recognised */
    | UnknownRotationMethod(name: string)
    /** `Exception`: scoring requested while no component matrix exists */
    | NoComponents
    /** numpy's `ValueError`: operands that cannot be broadcast together or aligned for a product */
    | ShapeMismatch
    /** one of the numerical collaborators (extraction, retention rules, PAF, rotators) raised */
    | CollaboratorFailed

  /** The outcome of a method that returns nothing: it finished, or it raised. */
  datatype Outcome = Done | Raised(error: Error)
}
