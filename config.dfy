/**
 * The per-path configuration stored with each remembered path.
 */
module Config {
  import opened Text
  import opened Wrappers

  /**
   * What a remembered path skips and includes. `useVision` is tri-state:
   * `None` means "not set", which callers treat like `Some(true)`.
   */
  datatype PathConfig = PathConfig(
    skipHidden: bool,
    skipExtensions: seq<String>,
    skipDirectories: seq<String>,
    skipFiles: seq<String>,
    includeExtensions: seq<String>,
    includeDirectories: seq<String>,
    includeFiles: seq<String>,
    useVision: Option<bool>)

  /** The zero configuration: nothing skipped, nothing included, vision unset. */
  const EmptyConfig: PathConfig := PathConfig(false, [], [], [], [], [], [], None)
}
