/** What the checks of a run report, told by the answers of policy and tools. */
module ChecksMeaning {
  import opened Wrappers
  import opened Text
  import opened Findings
  import opened ModelReview
  import opened ToolLists
  import opened Records
  import opened ReviewResult
  import opened Commands
  import opened Governance
  import opened ReviewChecks

  // ----- the Skill's lists -----

  /** The last event of the Skill step is an answer that holds these lists. */
  predicate AnsweredWith(cfg: Config, trace: seq<Event>, payload: Lists) {
    && trace != [] && trace[|trace| - 1].Called? && trace[|trace| - 1].outcome.Raw?
    && var decoded := cfg.decodeSkill(trace[|trace| - 1].outcome.value);
       decoded.Ok? && cfg.decodeFindings(TrimSpace(decoded.value.stdout)) == Ok(payload)
  }

  /** The findings of a run of the Skill are made of the findings it printed, and the warnings of the warnings. */
  lemma SkillListsAre(cfg: Config, trace: seq<Event>, payload: Lists)
    requires AnsweredWith(cfg, trace, payload)
    ensures var (lists, error) := SkillResult(cfg, None, trace);
            && error == None
            && ListOf(cfg.redact, payload.findings, lists.findings)
            && ListOf(cfg.redact, payload.warnings, lists.warnings)
  {
    ListOfIs(cfg.redact, payload.findings);
    ListOfIs(cfg.redact, payload.warnings);
  }

  // ----- refused requests and answered calls -----

  /** A check that ended with a refusal has the refusal's action as status, and nothing was run for its record. */
  predicate OnlyRefused(run: SandboxRun, started: SandboxRun, action: string) {
    && run.status == action && run.exitCode == started.exitCode && run.output == started.output
    && run.stdoutDigest == started.stdoutDigest && run.stderrDigest == started.stderrDigest
    && run.taskId == started.taskId && run.command == started.command && run.at == started.at
    && run.finishedAt == started.finishedAt && run.durationMs == started.durationMs
  }

  /** What a refusal leaves: for a Go check the action of the policy, "deny" when the policy itself failed; for the
      Skill the same and one warning that asks for a human with the policy's reason. */
  lemma RefusalMeans(cfg: Config, run: SandboxRun, ms: int, request: Request, answer: Answer, at: int)
    ensures var last := Checked(request, answer, at);
            && OnlyRefused(Ended(cfg, run, last), run, if answer.Permit? then answer.action else "deny")
            && (answer.Permit? ==>
                  && OnlyRefused(SkillEnded(cfg, run, ms, last), run, answer.action)
                  && var (lists, error) := SkillResult(cfg, None, [last]);
                     && error == None && lists.findings == [] && |lists.warnings| == 1
                     && lists.warnings[0].status == "needs_human_review" && lists.warnings[0].evidence == answer.reason
                     && lists.warnings[0].ruleId == "permission-non-allow")
            && (answer.Broken? ==>
                  && SkillEnded(cfg, run, ms, last) == NoRun
                  && SkillResult(cfg, None, [last]) == (NoLists, Some(answer.message)))
  {
    var last := Checked(request, answer, at);
    assert [last][|[last]| - 1] == last;
  }

  /** What an answered call leaves in a Go check's record: the clipped output and the digest of the whole of it; after
      an error only the digest of the error. */
  lemma OutputMeans(cfg: Config, run: SandboxRun, request: Request, outcome: Outcome)
    ensures var r := Ended(cfg, run, Called(request, outcome));
            && r.taskId == run.taskId && r.command == run.command && r.at == run.at && r.durationMs == run.durationMs
            && r.executionStarted == run.executionStarted && r.finishedAt == run.finishedAt
            && match outcome
               case Failed(message, _) =>
                 r.stderrDigest == cfg.digest(message) && r.output == run.output && r.stdoutDigest == run.stdoutDigest
               case Raw(value) =>
                 var text := cfg.decodeCommand(value).text;
                 && r.output == cfg.clip(text, cfg.outputLimit) && r.stdoutDigest == cfg.digest(text)
                 && r.stderrDigest == run.stderrDigest
  {}

  /** The same for the Skill: digests of both streams of the script, or of the error. */
  lemma SkillOutputMeans(cfg: Config, run: SandboxRun, ms: int, request: Request, outcome: Outcome)
    ensures var r := SkillEnded(cfg, run, ms, Called(request, outcome));
            && r.taskId == run.taskId && r.command == run.command && r.at == run.at
            && match outcome
               case Failed(message, _) => r.stderrDigest == cfg.digest(message) && r.durationMs == ms
               case Raw(value) =>
                 match cfg.decodeSkill(value)
                 case Err(message) => r.stderrDigest == cfg.digest(message) && r.durationMs == ms
                 case Ok(out) =>
                   && r.stdoutDigest == cfg.digest(out.stdout) && r.stderrDigest == cfg.digest(out.stderr)
                   && r.durationMs == if ms == 0 then out.durationMs else ms
  {}

  /** A decision record names the command of its request, the action and reason of the policy, and the time. */
  lemma RecordMeans(taskId: string, request: Request, answer: Answer, at: int)
    ensures var d := RecordOf(taskId, request, answer, at);
            && d.taskId == taskId && d.at == at
            && d.action == (if answer.Permit? then answer.action else "deny")
            && d.reason == (if answer.Permit? then answer.reason else answer.message)
            && d.command == match request
                            case SkillRequest(_) => SKILL_COMMAND
                            case WorkspaceRequest(_, command, _) => command
                            case CodeRequest(_, _, command, _) => command
  {}
}
