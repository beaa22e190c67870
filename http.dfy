/** The JSON responses the backend writes: a status code and one of the
    body shapes it uses. */
module Http {
  import Project

  datatype Payload =
    | ValidationFailed(error: string, details: seq<Project.Issue>)  // { error, details }
    | ErrorMessage(error: string, message: string)                  // { error, message }
    | Succeeded(success: bool, data: Project.ResultData)            // { success, data }
    | Status(status: string, message: string)                       // { status, message }

  datatype Response = Response(status: int, payload: Payload)
}
