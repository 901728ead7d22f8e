/** The user-facing message texts the core components fall back on when the server sends
    no message of its own (the `MESSAGES.BUG` group). */
module Messages {
  const BugCommented := "Comment added successfully"
  const BugCommentFailed := "Failed to add comment"
  const BugAssignFailed := "Failed to assign bug"
}
