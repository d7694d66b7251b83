/** The history page: the label of each submission's status and the
    fallbacks of the list. */
module History {
  import opened Common
  import opened Records
  import SolvePage

  datatype Label = Label(text: string, color: string, bg: string)

  /** The `statusLabel` table. */
  const StatusLabels: map<string, Label> := map[
    SolvedIndependently := Label("Solved", "#16a34a", "#f0fdf4"),
    SolvedWithSolution := Label("Solution Used", "#d97706", "#fffbeb"),
    Failed := Label("Failed", "#dc2626", "#fef2f2")]

  /** `statusLabel[item.status] || statusLabel['FAILED']`. */
  function StatusLabel(status: Option<string>): (l: Label)
    ensures status.Some? && status.value in StatusLabels ==> l == StatusLabels[status.value]
    ensures !(status.Some? && status.value in StatusLabels) ==> l == StatusLabels[Failed]
  {
    if status.Some? && status.value in StatusLabels then StatusLabels[status.value] else StatusLabels[Failed]
  }

  /** The two solved statuses have their own labels; anything else,
      including no status at all, is labelled Failed. */
  lemma StatusLabelTable(status: Option<string>)
    ensures StatusLabel(Some(SolvedIndependently)).text == "Solved"
    ensures StatusLabel(Some(SolvedWithSolution)).text == "Solution Used"
    ensures StatusLabel(status).text == "Failed" <==>
      !(status == Some(SolvedIndependently) || status == Some(SolvedWithSolution))
  {
  }

  /** Every status the Solve page stores is shown as solved, never as Failed. */
  lemma StoredStatusesNotFailed(solutionVisible: bool)
    ensures StatusLabel(Some(SolvePage.StoredStatusFor(solutionVisible))).text != "Failed"
    ensures StatusLabel(Some(SolvePage.StoredStatusFor(solutionVisible))).text == "Solution Used" <==> solutionVisible
  {
  }

  /** What opening the page does: without a user it redirects to the login
      page and queries nothing; with one it queries that user's submissions. */
  datatype Visit = RedirectToLogin | QuerySubmissions(userId: string)

  function OnVisit(user: Option<Session>): (v: Visit)
    ensures v.RedirectToLogin? <==> user.None?
    ensures v.QuerySubmissions? ==> v.userId == user.value.userId
  {
    if user.None? then RedirectToLogin else QuerySubmissions(user.value.userId)
  }

  /** The problem fields joined to a submission row. */
  datatype ProblemSummary = ProblemSummary(category: Option<string>, questionText: Option<string>, source: Option<string>)

  datatype HistoryItem = HistoryItem(status: Option<string>, pointsEarned: int, problem: Option<ProblemSummary>)

  /** `data || []`. */
  function HistoryList(data: Option<seq<HistoryItem>>): (items: seq<HistoryItem>)
    ensures data.None? ==> items == []
    ensures data.Some? ==> items == data.value
  {
    if data.Some? then data.value else []
  }

  /** `p?.field || fallback`: a missing field or an empty text gives the fallback. */
  function TextOr(field: Option<string>, fallback: string): (t: string)
    ensures field.Some? && field.value != "" ==> t == field.value
    ensures !(field.Some? && field.value != "") ==> t == fallback
  {
    if field.Some? && field.value != "" then field.value else fallback
  }

  /** One rendered entry of the list. */
  datatype Entry = Entry(category: string, question: string, source: string, badge: Label, points: int)

  function EntryOf(item: HistoryItem): (e: Entry)
    ensures e.category != "" && e.question != ""
    ensures item.problem.None? ==> e.category == "Math" && e.question == "Problem" && e.source == ""
    ensures e.badge == StatusLabel(item.status) && e.points == item.pointsEarned
  {
    var p := item.problem;
    Entry(TextOr(if p.Some? then p.value.category else None, "Math"),
          TextOr(if p.Some? then p.value.questionText else None, "Problem"),
          TextOr(if p.Some? then p.value.source else None, ""),
          StatusLabel(item.status),
          item.pointsEarned)
  }
}
