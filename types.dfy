/** Small value types shared by the page and its components. */
module Types {

  /** A value that may be absent (`undefined` / `null` in the page's code). */
  datatype Option<+T> = None | Some(value: T)

  /** A station pair as held by the page (`interface Route` of src/pages/Index.tsx). */
  datatype Route = Route(from: string, to: string)
}
