/**
 * The whole run: the configuration check at start-up, the single board
 * query, the staged checks on its reply, then the dispatch loop. Every error
 * before the loop ends the run with no email attempted.
 */
module Job {
  import opened Wrappers
  import opened Config
  import opened Board
  import opened Dispatch

  /** The one board query: its Authorization header and the board it names. */
  datatype Query = Query(authorization: string, boardId: string)

  /** How a run ends. */
  datatype Report =
    | MissingConfig(names: seq<string>)
    | Stopped(error: RunError)
    | Completed(outcomes: seq<Outcome>)

  /**
   * One run against the environment `env`, the board API's reply
   * `boardReply` and the email provider's answers `sendOk`. Besides its
   * report, it returns the query it issued, if any, and the emails it tried
   * to send, failed ones included.
   */
  method RunJob(env: Env, boardReply: HttpReply, sendOk: nat -> bool)
    returns (report: Report, query: Option<Query>, attempted: seq<Message>)
    // configuration: an error naming every unset variable, before any query
    ensures report.MissingConfig? <==> exists name :: name in RequiredVars && !IsSet(env, name)
    ensures report.MissingConfig? ==> report.names == MissingVars(RequiredVars, env) && query.None? && attempted == []
    // otherwise exactly one query, made with the configured key and board
    ensures !report.MissingConfig? ==>
      && LoadSettings(env).Success?
      && query == Some(Query(LoadSettings(env).value.mondayApiKey, LoadSettings(env).value.boardId))
    // a non-200 status stops the run, carrying the status and body text
    ensures !report.MissingConfig? && boardReply.statusCode != 200 ==>
      report == Stopped(QueryFailed(boardReply.statusCode, boardReply.text))
    // every stop after the query sends nothing
    ensures report.Stopped? <==> !report.MissingConfig? && FetchItems(boardReply).Failure?
    ensures report.Stopped? ==> report.error == FetchItems(boardReply).error && attempted == []
    // otherwise every item is processed and the eligible ones are attempted, in order
    ensures report.Completed? ==>
      && FetchItems(boardReply).Success?
      && report.outcomes == Plan(FetchItems(boardReply).value, sendOk)
      && attempted == Attempts(LoadSettings(env).value.fromEmail, FetchItems(boardReply).value)
  {
    attempted := [];
    match LoadSettings(env)
    case Failure(names) =>
      report, query := MissingConfig(names), None;
    case Success(settings) =>
      query := Some(Query(settings.mondayApiKey, settings.boardId));
      match FetchItems(boardReply)
      case Failure(e) =>
        report := Stopped(e);
      case Success(items) =>
        var outcomes;
        outcomes, attempted := DispatchAll(settings.fromEmail, items, sendOk);
        report := Completed(outcomes);
  }
}
