/** The command texts of the sandbox, and the Go checks a review may run. */
module Commands {
  import opened Text

  const CONTAINER := "container"
  const E2B := "e2b"
  const CONTAINER_REPO := "/workspace/repo"
  const GO_CACHE := "/tmp/cr-agent-gocache"
  const GO_BINARY := "/usr/local/go/bin/go"
  const ENV_WHITELIST := "PATH,HOME,TMPDIR,GOCACHE"

  const GO_TEST := "go test ./..."
  const GO_VET := "go vet ./..."
  const STATICCHECK := "staticcheck ./..."

  function AllowedReviewCommands(enableStaticcheck: bool): seq<string> {
    [GO_TEST, GO_VET] + if enableStaticcheck then [STATICCHECK] else []
  }

  function SandboxExecCommand(runtime: string, command: string): string {
    if runtime == CONTAINER && "go " <= command then GO_BINARY + TrimPrefix(command, "go") else command
  }

  const PIPE_OPEN := "{ "
  const PIPE_MIDDLE := "; } 2>&1 | { head -c "
  const PIPE_CLOSE := "; cat >/dev/null; }"
  const BASH := "bash -o pipefail -c "

  function Pipeline(command: string, limit: int): string {
    PIPE_OPEN + command + PIPE_MIDDLE + Itoa(limit) + PIPE_CLOSE
  }

  function BoundedSandboxCommand(command: string, limit: int): string {
    if limit <= 0 then command else BASH + ShellQuote(Pipeline(command, limit))
  }

  function SandboxRepoPath(runtime: string, hostRepoPath: string): string {
    if runtime == CONTAINER then CONTAINER_REPO else hostRepoPath
  }

  const AND_THEN := " && "

  function SandboxCode(runtime: string, hostRepoPath: string, command: string): string {
    "cd " + ShellQuote(SandboxRepoPath(runtime, hostRepoPath)) + AND_THEN
    + "export GOCACHE=" + ShellQuote(GO_CACHE) + AND_THEN + command
  }

  /** strings.ReplaceAll(value, "'", "'\"'\"'") */
  function EscapeQuotes(value: string): string {
    if value == "" then ""
    else (if value[0] == '\'' then "'\"'\"'" else [value[0]]) + EscapeQuotes(value[1..])
  }

  function ShellQuote(value: string): string {
    "'" + EscapeQuotes(value) + "'"
  }
}
