/**
 The shape of the user configuration that the orchestrator reads. Loading
 it from the configuration file is not part of this model; the loaded value
 is an input.
 */
module Config {

  datatype Option<T> = None | Some(value: T)

  /** The loaded user configuration. */
  datatype UserConfig = UserConfig(
    /** Where remote templates are cloned to. */
    cookiecuttersDir: string,
    /** Default values the template's declared context is overridden with. */
    defaultContext: map<string, string>,
    /** `None` when the configuration has no `abbreviations` entry. */
    abbreviations: Option<map<string, string>>)
}
