/**
 * The part of Android's resource system the adapter touches: integer string
 * resource ids, the generated constant `R.string.missing_label`, and
 * `Resources.getString`. Resource lookup is platform code, so both the
 * constant and the lookup are left uninterpreted.
 */
module AndroidResources {

  /** A generated `R.string` id (a Java `int`). */
  type ResId = int

  /** `R.string.missing_label`: some fixed id whose value the model does not fix. */
  const MissingLabel: ResId

  /** A resource table; `getString` is whatever string the platform returns for an id. */
  datatype Resources = Resources(getString: ResId -> string)
}
