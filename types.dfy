/** Value types shared by the application controller. */
module Types {

  /** A nullable value (`T | null` in the application). */
  datatype Option<+T> = None | Some(value: T)

  /** The two output formats the user can choose. The string each one
      renders as comes from a module outside this model, so it is never
      fixed here: operations that need it take it as a parameter. */
  datatype GenerationType = Thumbnail | Logo
}
