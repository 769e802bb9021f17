/** The configured limits (config.py). The program reads them from the environment
    at start-up and falls back to these defaults; here they are the defaults. */
module Config {

  /** Maximum number of projects. Nothing in the domain layer enforces it. */
  const ProjectMaxCount: int := 10
  const ProjectMaxNameLen: int := 30
  const ProjectMaxDescriptionLen: int := 150

  /** Maximum number of tasks per project. Nothing in the domain layer enforces it. */
  const TaskMaxCount: int := 20
  const TaskMaxNameLen: int := 30
  const TaskMaxDescriptionLen: int := 150
}
