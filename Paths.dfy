/** The host's path functions, left uninterpreted: the model never looks inside them. */
module Paths {

  /**
   * `getFullPath` stands for `Path.GetFullPath`, `combine` for `Path.Combine`
   * and `join` for `Path.Join`. Normalisation, rooted-path override and
   * separators are the operating system's business and are not modelled.
   */
  datatype PathOps = PathOps(
    getFullPath: string -> string,
    combine: (string, string) -> string,
    join: (string, string) -> string)
}
