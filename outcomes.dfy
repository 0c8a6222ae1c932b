/** The ways an animator operation can fail, and the wrappers that carry them.
    Each failure stands for an exception the C# code lets escape to its caller. */
module Outcomes {

  datatype Failure =
    | FieldNotFound(field: string)  // Type.GetField found no field of that name
    | KindMismatch(field: string)   // the bound wrapper is not of the requested parameter kind
    | NullTween                     // the completion callback of a null handle was read
    | SettingNotFound               // the profile holds no setting of the effect's type
    | DuplicateEffect               // a second setting of a type already registered
    | EffectNotFound                // lookup of a type that was not discovered

  datatype Result<T> = Ok(value: T) | Err(failure: Failure)

  datatype Outcome = Pass | Fail(failure: Failure)
}
