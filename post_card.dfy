/**
  The client's side of a vote: pressing the button for the vote the user
  already has retracts it, so the request carries 0 instead of that value.
 */
module PostCard {
  import opened Wrappers
  import opened Votes

  /** The value the client sends when the user presses the `requested` button
      while the user's own vote shown on the target is `current`. */
  function Normalize(current: int, requested: int): (r: int)
    ensures IsVoteValue(current) && IsVoteValue(requested) ==> IsVoteValue(r)
    ensures r == 0 <==> requested == 0 || requested == current
    ensures r != 0 ==> r == requested
  {
    if requested == current then 0 else requested
  }

  /**
    A button press (up or down) never hits the "vote not found" path, when
    the client shows the user's stored own vote.
   */
  lemma PressButton(votes: VoteMap, key: VoteKey, pressed: int)
    requires WellFormed(votes) && (pressed == 1 || pressed == -1)
    ensures Cast(votes, key, Normalize(UserVote(votes, key), pressed)).Ok?
  {
  }

  /** The rows after one press of a button by the owner of `key`, when the
      client shows the stored own vote: the user's own vote becomes the
      pressed value, or 0 when the press repeated the vote already there. */
  function Press(votes: VoteMap, key: VoteKey, pressed: int): (r: VoteMap)
    requires WellFormed(votes) && (pressed == 1 || pressed == -1)
    ensures WellFormed(r) && AgreeExcept(votes, r, key)
    ensures UserVote(r, key) == if UserVote(votes, key) == pressed then 0 else pressed
  {
    PressButton(votes, key, pressed);
    Cast(votes, key, Normalize(UserVote(votes, key), pressed)).value
  }

  /** Pressing the same button twice, starting with no vote on the target,
      leaves the vote rows exactly as they were. */
  lemma PressTwiceRestores(votes: VoteMap, key: VoteKey, pressed: int)
    requires WellFormed(votes) && (pressed == 1 || pressed == -1)
    requires key !in votes
    ensures Press(Press(votes, key, pressed), key, pressed) == votes
  {
  }
}
