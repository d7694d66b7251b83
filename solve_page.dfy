/** The state of the Solve page and its handlers: fetching a problem (which
    resets the per-problem state), submitting an answer (scoring, status and
    the remote writes a signed-in user triggers), revealing the solution and
    the vault load and save. Backend replies are parameters; the writes a
    handler issues are returned in the order it awaits them. */
module SolvePage {
  import opened Common
  import opened Records
  import opened SolveAnswer
  import opened SolveSelection

  /** The feedback shown after a submission. */
  datatype Status = Correct | CorrectWithSolution | Wrong {
    /** The string the page keeps in its `status` state. */
    function Text(): string {
      match this
      case Correct => "correct"
      case CorrectWithSolution => "correct_with_solution"
      case Wrong => "wrong"
    }
  }

  /** Points for a correct answer: 75 once the solution has been shown, 100 otherwise. */
  function PointsFor(solutionVisible: bool): nat {
    if solutionVisible then 75 else 100
  }

  function StatusFor(solutionVisible: bool): Status {
    if solutionVisible then CorrectWithSolution else Correct
  }

  /** The status stored with the submission row. */
  function StoredStatusFor(solutionVisible: bool): string {
    if solutionVisible then SolvedWithSolution else SolvedIndependently
  }

  /** `profile?.total_score || 0`. */
  function PreviousScore(profile: Option<ProfileRow>): int {
    if profile.Some? then profile.value.totalScore else 0
  }

  /** The guard in front of every backend write on this page: a signed-in
      user, and a problem that is not one of the built-in demo problems. */
  predicate MayWriteRemote(user: Option<Session>, problemId: string) {
    user.Some? && !StartsWith(problemId, "demo")
  }

  /** One backend call issued by a handler. */
  datatype RemoteWrite =
    | InsertSubmission(submission: SubmissionRow)
    | UpdateTotalScore(userId: string, totalScore: int)
    | RefetchProfile(userId: string)
    | UpsertVault(vault: VaultRow)

  /** `saveVault`'s upsert of the notes and the scratchpad snapshot. */
  function VaultWrite(user: Session, problem: Problem, notes: string, scratchpadData: Option<string>): RemoteWrite {
    UpsertVault(VaultRow(user.userId, problem.id, Some(notes), scratchpadData))
  }

  /** The writes after a correct answer, in the order they are awaited. */
  function SubmitWrites(user: Session, problem: Problem, solutionVisible: bool, profile: Option<ProfileRow>,
                        notes: string, scratchpadData: Option<string>): (ws: seq<RemoteWrite>)
    ensures |ws| == 4
    ensures ws[0].InsertSubmission? && ws[0].submission.userId == user.userId && ws[0].submission.problemId == problem.id
    ensures ws[0].submission.pointsEarned == PointsFor(solutionVisible)
    ensures ws[1].UpdateTotalScore? && ws[1].userId == user.userId
    ensures ws[1].totalScore == PreviousScore(profile) + ws[0].submission.pointsEarned
    ensures ws[2] == RefetchProfile(user.userId)
    ensures ws[3] == VaultWrite(user, problem, notes, scratchpadData)
  {
    var pts := PointsFor(solutionVisible);
    [ InsertSubmission(SubmissionRow(user.userId, problem.id, StoredStatusFor(solutionVisible), pts)),
      UpdateTotalScore(user.userId, PreviousScore(profile) + pts),
      RefetchProfile(user.userId),
      VaultWrite(user, problem, notes, scratchpadData) ]
  }

  /** The points, the status shown and the status stored always tell the same
      story: 75 exactly when the solution was visible. */
  lemma ScoringAgrees(solutionVisible: bool)
    ensures PointsFor(solutionVisible) in {75, 100}
    ensures PointsFor(solutionVisible) == 75 <==> solutionVisible
    ensures StatusFor(solutionVisible) == CorrectWithSolution <==> PointsFor(solutionVisible) == 75
    ensures StatusFor(solutionVisible) == Correct <==> PointsFor(solutionVisible) == 100
    ensures StoredStatusFor(solutionVisible) == SolvedWithSolution <==> PointsFor(solutionVisible) == 75
    ensures StoredStatusFor(solutionVisible) == SolvedIndependently <==> PointsFor(solutionVisible) == 100
    ensures StatusFor(solutionVisible).Text() == (if PointsFor(solutionVisible) == 75 then "correct_with_solution" else "correct")
    ensures StatusFor(solutionVisible).Text() != Wrong.Text()
  {
  }

  /** The stored submission and the new total agree with the points, and the
      total strictly increases. */
  lemma SubmitWritesAgree(user: Session, problem: Problem, solutionVisible: bool, profile: Option<ProfileRow>,
                          notes: string, scratchpadData: Option<string>)
    ensures var ws := SubmitWrites(user, problem, solutionVisible, profile, notes, scratchpadData);
      && (ws[0].submission.status == SolvedWithSolution <==> ws[0].submission.pointsEarned == 75)
      && (ws[0].submission.status == SolvedIndependently <==> ws[0].submission.pointsEarned == 100)
      && ws[1].totalScore > PreviousScore(profile)
  {
  }

  /** A problem from the demo pool never leads to a backend write. */
  lemma DemoProblemsNeverWritten(user: Option<Session>, p: Problem)
    requires p in DemoProblems
    ensures !MayWriteRemote(user, p.id)
  {
    DemoIdsAreDemo();
  }

  /** The `try`/`catch` of `fetchProblem`: the problem it hands to
      `setProblem`, given the store's reply and `Math.random()`. */
  method Selected(category: string, outcome: Outcome<seq<Problem>>, r: real) returns (selected: Option<Problem>)
    requires 0.0 <= r < 1.0
    ensures selected == SelectProblem(category, outcome, r)
  {
    match outcome {
      case Threw =>
        var pool := DemoProblems;
        selected := Draw(pool, r);
      case Replied(error, data) =>
        if error.Some? || data.None? || |data.value| == 0 {
          var pool := DemoProblems;
          if category != "ALL" {
            pool := FilterCategory(pool, category);
          }
          selected := Draw(pool, r);
        } else {
          selected := Draw(data.value, r);
        }
    }
  }

  class Solve {
    var problem: Option<Problem>
    var answer: string
    var notes: string
    var scratchpadData: Option<string>
    var status: Option<Status>
    var solutionVisible: bool
    var pointsEarned: Option<nat>
    var loading: bool
    var submitting: bool
    var category: string
    var difficulty: string

    /** The status and the points shown agree: points are present exactly
        after a correct answer, 100 or 75 by the status. */
    ghost predicate Valid()
      reads this
    {
      && (status == Some(Correct) ==> pointsEarned == Some(100))
      && (status == Some(CorrectWithSolution) ==> pointsEarned == Some(75))
      && (status.None? || status == Some(Wrong) ==> pointsEarned.None?)
    }

    /** The answer field and the submit button are shown: no correct answer yet. */
    predicate AnswerOpen()
      reads this
    {
      status != Some(Correct) && status != Some(CorrectWithSolution)
    }

    /** The initial state of every `useState` of the page. */
    constructor ()
      ensures Valid()
      ensures problem == None && answer == "" && notes == "" && scratchpadData == None
      ensures status == None && !solutionVisible && pointsEarned == None
      ensures !loading && !submitting && category == "ALL" && difficulty == "ALL"
    {
      problem, answer, notes, scratchpadData := None, "", "", None;
      status, solutionVisible, pointsEarned := None, false, None;
      loading, submitting, category, difficulty := false, false, "ALL", "ALL";
    }

    /** A category pill. */
    method SelectCategory(c: string)
      modifies this`category
      ensures category == c
    {
      category := c;
    }

    /** A difficulty pill. */
    method SelectDifficulty(d: string)
      modifies this`difficulty
      ensures difficulty == d
    {
      difficulty := d;
    }

    /** Typing in the answer field. */
    method EditAnswer(text: string)
      modifies this`answer
      ensures answer == text
    {
      answer := text;
    }

    /** Typing in the notes area. */
    method EditNotes(text: string)
      modifies this`notes
      ensures notes == text
    {
      notes := text;
    }

    /** The scratchpad's `onDataChange` callback. */
    method ReceiveScratchpad(data: Option<string>)
      modifies this`scratchpadData
      ensures scratchpadData == data
    {
      scratchpadData := data;
    }

    /** `fetchProblem`: reset the per-problem state, query the store with the
        current filters and settle on a problem. `outcome` is the store's
        reply and `r` the value of `Math.random()`. */
    method FetchProblem(outcome: Outcome<seq<Problem>>, r: real) returns (query: ProblemQuery)
      requires Valid()
      requires 0.0 <= r < 1.0
      modifies this
      ensures Valid()
      ensures query == QueryFor(category, difficulty)
      ensures answer == "" && notes == "" && scratchpadData == None
      ensures status == None && pointsEarned == None && !solutionVisible
      ensures problem == SelectProblem(category, outcome, r)
      ensures !loading
      ensures category == old(category) && difficulty == old(difficulty) && submitting == old(submitting)
    {
      ResetForFetch();
      var cat := category;
      query := QueryFor(cat, difficulty);
      problem := Selected(cat, outcome, r);
      loading := false;
    }

    /** The resets `fetchProblem` performs before it queries the store. */
    method ResetForFetch()
      modifies this`loading, this`answer, this`notes, this`scratchpadData
      modifies this`status, this`solutionVisible, this`pointsEarned
      ensures Valid() && loading
      ensures answer == "" && notes == "" && scratchpadData == None
      ensures status == None && pointsEarned == None && !solutionVisible
    {
      loading := true;
      answer := "";
      notes := "";
      scratchpadData := None;
      status := None;
      solutionVisible := false;
      pointsEarned := None;
    }

    /** "Show Solution". */
    method ShowSolution()
      requires Valid()
      modifies this`solutionVisible
      ensures Valid() && solutionVisible
    {
      solutionVisible := true;
    }

    /** `handleSubmit` for the signed-in `user` (if any) with `profile`. */
    method HandleSubmit(user: Option<Session>, profile: Option<ProfileRow>) returns (writes: seq<RemoteWrite>)
      requires Valid()
      requires AnswerOpen()
      modifies this`status, this`pointsEarned, this`submitting
      ensures Valid()
      // a blank answer or no problem: nothing happens
      ensures IsBlank(answer) || problem.None? ==>
        && writes == [] && status == old(status) && pointsEarned == old(pointsEarned) && submitting == old(submitting)
      // a wrong answer: status "wrong", no points, no write
      ensures !IsBlank(answer) && problem.Some? && !AnswersMatch(answer, problem.value.finalAnswer) ==>
        && status == Some(Wrong) && pointsEarned == None && !submitting && writes == []
      // a correct answer: points and status, and the writes if the guard allows them
      ensures !IsBlank(answer) && problem.Some? && AnswersMatch(answer, problem.value.finalAnswer) ==>
        && pointsEarned == Some(PointsFor(solutionVisible))
        && status == Some(StatusFor(solutionVisible))
        && !submitting
        && writes == (if MayWriteRemote(user, problem.value.id)
                      then SubmitWrites(user.value, problem.value, solutionVisible, profile, notes, scratchpadData)
                      else [])
    {
      assert status.None? || status.value == Wrong;
      assert pointsEarned.None?;
      writes := [];
      if IsBlank(answer) || problem.None? {
        return;
      }
      submitting := true;

      var isCorrect := Normalize(answer) == Normalize(problem.value.finalAnswer);
      if !isCorrect {
        status := Some(Wrong);
        submitting := false;
        return;
      }

      var pts := PointsFor(solutionVisible);
      pointsEarned := Some(pts);
      status := Some(if solutionVisible then CorrectWithSolution else Correct);

      if user.Some? && !StartsWith(problem.value.id, "demo") {
        var u := user.value;
        var p := problem.value;
        writes := writes + [InsertSubmission(SubmissionRow(u.userId, p.id, StoredStatusFor(solutionVisible), pts))];
        writes := writes + [UpdateTotalScore(u.userId, PreviousScore(profile) + pts)];
        writes := writes + [RefetchProfile(u.userId)];
        var vault := SaveVault(user);
        writes := writes + [vault.value];
      }
      submitting := false;
    }

    /** `saveVault`: the upsert it issues, if its guard lets one through. */
    method SaveVault(user: Option<Session>) returns (write: Option<RemoteWrite>)
      ensures write.Some? <==> problem.Some? && MayWriteRemote(user, problem.value.id)
      ensures write.Some? ==> write.value == VaultWrite(user.value, problem.value, notes, scratchpadData)
    {
      if user.None? || problem.None? || StartsWith(problem.value.id, "demo") {
        return None;
      }
      write := Some(VaultWrite(user.value, problem.value, notes, scratchpadData));
    }

    /** The vault effect when the problem changes: the query is issued only if
        the write guard passes, and a row found overwrites notes and snapshot
        (`data.notes || ''`, `data.scratchpad_data || null`). `found` is the
        row the store returns. */
    method LoadVault(user: Option<Session>, found: Option<VaultRow>) returns (queried: bool)
      modifies this`notes, this`scratchpadData
      ensures queried <==> problem.Some? && MayWriteRemote(user, problem.value.id)
      ensures queried && found.Some? ==>
        && notes == (if found.value.notes.Some? then found.value.notes.value else "")
        && scratchpadData == (if found.value.scratchpadData.Some? && found.value.scratchpadData.value != ""
                              then found.value.scratchpadData else None)
      ensures !(queried && found.Some?) ==> notes == old(notes) && scratchpadData == old(scratchpadData)
    {
      if user.None? || problem.None? || StartsWith(problem.value.id, "demo") {
        return false;
      }
      queried := true;
      if found.Some? {
        var row := found.value;
        notes := if row.notes.Some? then row.notes.value else "";
        scratchpadData := if row.scratchpadData.Some? && row.scratchpadData.value != "" then row.scratchpadData else None;
      }
    }
  }

  /** End to end: a signed-in user with score 0 who enters the right answer
      to a stored problem without looking at the solution earns 100 points,
      a SOLVED_INDEPENDENTLY submission and a new total of 100. */
  method CorrectSubmissionScenario(user: Session, profile: ProfileRow, p: Problem, r: real)
      returns (writes: seq<RemoteWrite>)
    requires profile.totalScore == 0
    requires !StartsWith(p.id, "demo") && !IsBlank(p.finalAnswer)
    requires 0.0 <= r < 1.0
    ensures |writes| == 4
    ensures writes[0] == InsertSubmission(SubmissionRow(user.userId, p.id, SolvedIndependently, 100))
    ensures writes[1] == UpdateTotalScore(user.userId, 100)
  {
    var page := new Solve();
    var _ := page.FetchProblem(Replied(None, Some([p])), r);
    page.EditAnswer(p.finalAnswer);
    writes := page.HandleSubmit(Some(user), Some(profile));
  }
}
