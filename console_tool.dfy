/** The console tool: submits R code to the tool server's /console/exec endpoint. */
module ConsoleTool {
  import opened Wrappers
  import opened Json
  import opened TextEditorTool

  datatype ConsoleInput = ConsoleInput(code: string)

  const ConsoleEndpoint := "/console/exec"

  function ConsolePayload(input: ConsoleInput): Json {
    JObject(map["code" := JString(input.code)])
  }

  /**
    consoleExec: the decoded consoleExecOutput of a successful request, or an
    output with empty content and a communication-failure error. The result
    type has no error side: failures show only in `error`.
  */
  function ConsoleExec(input: ConsoleInput, post: Poster): (o: ToolOutput)
    ensures var r := MakeToolRequest(post(ConsoleEndpoint, ConsolePayload(input)), "consoleExecOutput");
      (r.Success? ==> o == r.value) &&
      (r.Failure? ==> o.content == "" && o.error == CommunicationFailure + r.error && o.error != "")
  {
    Wrap(MakeToolRequest(post(ConsoleEndpoint, ConsolePayload(input)), "consoleExecOutput"))
  }
}
