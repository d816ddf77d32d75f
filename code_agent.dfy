/**
 * The request and response every code-analysis agent exchanges with the
 * handlers. The agent interface itself carries no behaviour.
 */
module CodeAgent {

  /** What to analyse: the ticket, the code scope, the question, the project
      whose directory scopes the run, and the mode ("ask", "plan", "edit"). */
  datatype CodeAnalysisRequest = CodeAnalysisRequest(
    ticket_id: string,
    code_context: string,
    question: string,
    project_id: string,
    mode: string)

  /** The agent's answer, with the log lines it announced. */
  datatype CodeAnalysisResponse = CodeAnalysisResponse(
    ticket_id: string,
    result: string,
    logs: seq<string>,
    success: bool)
}
