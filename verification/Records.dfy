/** The audit records a run collects. Times are numbers; 0 is Go's zero time. */
module Records {

  datatype Decision = Decision(taskId: string, command: string, action: string, reason: string, at: int)

  datatype SandboxRun = SandboxRun(taskId: string, command: string, runtime: string, status: string,
                                   timeoutMs: int, outputLimit: int, envWhitelist: string, exitCode: int,
                                   stdoutDigest: string, stderrDigest: string, durationMs: int, output: string,
                                   at: int, finishedAt: int, artifactCount: int, executionStarted: bool)

  /** The zero records that an early Skill error leaves behind. */
  const NoDecision := Decision("", "", "", "", 0)
  const NoRun := SandboxRun("", "", "", "", 0, 0, "", 0, "", "", 0, "", 0, 0, 0, false)

  const SKILL_COMMAND := "scripts/check.sh"

  predicate ZeroDecision(d: Decision) {
    d.command == "" && d.action == ""
  }

  predicate ZeroRun(r: SandboxRun) {
    r.command == "" && r.status == ""
  }
}
