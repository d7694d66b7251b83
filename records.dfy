/** Rows of the backend tables and the client-side session as the pages read them. */
module Records {
  import opened Common

  /** The session object kept by the auth context: `{ user_id, email, username }`. */
  datatype Session = Session(userId: string, email: string, username: string)

  /** A row of the `profiles` table. `passwordHash` is absent for accounts made another way. */
  datatype ProfileRow = ProfileRow(
    userId: string,
    email: string,
    username: string,
    passwordHash: Option<string>,
    salt: string,
    totalScore: int,
    eloRating: int)

  /** A row inserted into the `submissions` table. */
  datatype SubmissionRow = SubmissionRow(userId: string, problemId: string, status: string, pointsEarned: int)

  /** A row of the `vault` table, keyed by (user, problem). */
  datatype VaultRow = VaultRow(userId: string, problemId: string, notes: Option<string>, scratchpadData: Option<string>)

  /** The submission statuses stored in the `submissions` table. */
  const SolvedIndependently: string := "SOLVED_INDEPENDENTLY"
  const SolvedWithSolution: string := "SOLVED_WITH_SOLUTION"
  const Failed: string := "FAILED"
}
