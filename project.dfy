/** The project experience record: the fourteen fields the request schema
    declares (backend/routes/generate.js), the issues its check reports, and
    the data a successful generation sends back. */
module Project {
  import Json

  /** The fourteen fields, one constructor each. */
  datatype Field =
    | ProjectTitle | OrganizationName | StartDate | EndDate | TotalHours | Role
    | ProjectDescription | Deliverables | Challenges
    | Initiating | Planning | Executing | MonitoringControlling | Closing

  /** The fields in the order the schema declares them, which is the order
      the schema check visits them and reports their issues in. */
  const SchemaOrder: seq<Field> := [
    ProjectTitle, OrganizationName, StartDate, EndDate, TotalHours, Role,
    ProjectDescription, Deliverables, Challenges,
    Initiating, Planning, Executing, MonitoringControlling, Closing]

  /** Position of a field in SchemaOrder. */
  function Rank(f: Field): (n: nat)
    ensures n < |SchemaOrder| && SchemaOrder[n] == f
  {
    match f
    case ProjectTitle => 0
    case OrganizationName => 1
    case StartDate => 2
    case EndDate => 3
    case TotalHours => 4
    case Role => 5
    case ProjectDescription => 6
    case Deliverables => 7
    case Challenges => 8
    case Initiating => 9
    case Planning => 10
    case Executing => 11
    case MonitoringControlling => 12
    case Closing => 13
  }

  /** The JSON key of a field in the request body and in the response data. */
  function Key(f: Field): string {
    match f
    case ProjectTitle => "projectTitle"
    case OrganizationName => "organizationName"
    case StartDate => "startDate"
    case EndDate => "endDate"
    case TotalHours => "totalHours"
    case Role => "role"
    case ProjectDescription => "projectDescription"
    case Deliverables => "deliverables"
    case Challenges => "challenges"
    case Initiating => "initiating"
    case Planning => "planning"
    case Executing => "executing"
    case MonitoringControlling => "monitoringControlling"
    case Closing => "closing"
  }

  /** The message the schema attaches to the minimum-length rule of a field. */
  function Message(f: Field): string {
    match f
    case ProjectTitle => "Project title is required"
    case OrganizationName => "Organization name is required"
    case StartDate => "Start date is required"
    case EndDate => "End date is required"
    case TotalHours => "Total hours is required"
    case Role => "Role is required"
    case ProjectDescription => "Project description is required"
    case Deliverables => "Key deliverables are required"
    case Challenges => "Challenges are required"
    case Initiating => "Initiating activities are required"
    case Planning => "Planning activities are required"
    case Executing => "Executing activities are required"
    case MonitoringControlling => "Monitoring & Controlling activities are required"
    case Closing => "Closing activities are required"
  }

  /** Distinct fields have distinct keys, so a body names each at most once. */
  lemma KeysDistinct(f: Field, g: Field)
    ensures Key(f) == Key(g) ==> f == g
  {
  }

  /** A validated record: the schema keeps only its own fields. */
  datatype Record = Record(
    projectTitle: string, organizationName: string, startDate: string,
    endDate: string, totalHours: string, role: string,
    projectDescription: string, deliverables: string, challenges: string,
    initiating: string, planning: string, executing: string,
    monitoringControlling: string, closing: string)
  {
    function Get(f: Field): string {
      match f
      case ProjectTitle => projectTitle
      case OrganizationName => organizationName
      case StartDate => startDate
      case EndDate => endDate
      case TotalHours => totalHours
      case Role => role
      case ProjectDescription => projectDescription
      case Deliverables => deliverables
      case Challenges => challenges
      case Initiating => initiating
      case Planning => planning
      case Executing => executing
      case MonitoringControlling => monitoringControlling
      case Closing => closing
    }
  }

  /** One entry of a validation error's issue list. The library's own
      wording of a type mismatch is not modelled; the received type is. */
  datatype Issue =
    | NotAnObject(received: Json.Kind)            // the body itself, empty path
    | FieldIssue(field: Field, problem: Problem)  // path [Key(field)]

  datatype Problem =
    | WrongType(received: Json.Kind)   // `z.string()` saw something else
    | TooShort(message: string)        // `.min(1, message)` saw ""

  /** The identifying fields echoed back with the generated text. */
  datatype ResultData = ResultData(
    projectTitle: string, organizationName: string, role: string,
    startDate: string, endDate: string, totalHours: string,
    generatedExperience: string)
}
