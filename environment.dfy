/**
 * What the two copies of the `new:plugin` command depend on but do not
 * compute themselves: which copy runs, and the facts about the PHP runtime
 * that their validators consult.
 */
module Environment {
  import opened Wrappers

  /**
   * `Current` is the command under `src/Commands/` with its `BaseCommand`;
   * `Legacy` is the older standalone copy in `src/`.
   */
  datatype Edition = Current | Legacy

  /**
   * The PHP runtime as the validators see it:
   * - `filterVar`: the `FILTER_VALIDATE_EMAIL` verdict of `filter_var`, or
   *   `None` when the function does not exist;
   * - `versionId`: `PHP_VERSION_ID`;
   * - `isLetter`: membership in the Unicode classes `\p{L}`, `\p{N}` and `\p{Mn}`.
   */
  datatype Platform = Platform(
    filterVar: Option<string -> bool>,
    versionId: int,
    isLetter: char -> bool)
}
