/**
 * The captured result of running one external command (src/runner.rs). Spawning the
 * process is outside the model: every check receives the outputs it would have obtained.
 */
module Runner {

  datatype CommandOutput = CommandOutput(stdout: string, stderr: string, success: bool)
}
