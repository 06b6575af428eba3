/**
  The vote store behind the `vote` route: one entry per (user, target), holding
  that user's opinion of a post or of a comment. A value of 0 is never stored;
  "no opinion" is the absence of the entry.
 */
module Votes {
  import opened Wrappers

  /** What a vote is attached to: a post or a comment, by identifier. */
  datatype Target = PostT(id: string) | CommentT(id: string)

  /** The identity of a vote row: who voted on what. */
  datatype VoteKey = VoteKey(user: string, target: Target)

  /** The vote rows. Being a map, it holds at most one vote per (user, target). */
  type VoteMap = map<VoteKey, int>

  /** Why a vote request fails. `ServerError` is the generic failure the route
      reports for any exception, here a lookup that found no row. */
  datatype Missing = PostMissing | CommentMissing
  datatype Failure = InvalidValue | VoteNotFound | ServerError(missing: Missing)

  /** The values a request may carry. */
  predicate IsVoteValue(v: int) {
    v == -1 || v == 0 || v == 1
  }

  /** Every stored vote is an up-vote or a down-vote, never 0. */
  predicate WellFormed(votes: VoteMap) {
    forall k :: k in votes ==> votes[k] == -1 || votes[k] == 1
  }

  /** The user's own vote on a target as shown to that user: the stored value,
      or 0 when the user has not voted on it. */
  function UserVote(votes: VoteMap, key: VoteKey): (r: int)
    ensures key in votes ==> r == votes[key]
    ensures key !in votes ==> r == 0
    ensures WellFormed(votes) ==> IsVoteValue(r)
    ensures WellFormed(votes) ==> (r == 0 <==> key !in votes)
  {
    if key in votes then votes[key] else 0
  }

  /** The up-votes and down-votes on a target. */
  function Ups(votes: VoteMap, t: Target): set<VoteKey> {
    set k | k in votes && k.target == t && votes[k] == 1
  }

  function Downs(votes: VoteMap, t: Target): set<VoteKey> {
    set k | k in votes && k.target == t && votes[k] == -1
  }

  /** The score of a target: up-votes minus down-votes. */
  function Score(votes: VoteMap, t: Target): int {
    |Ups(votes, t)| - |Downs(votes, t)|
  }

  /** Two stores agree everywhere except possibly at `key`. */
  ghost predicate AgreeExcept(before: VoteMap, after: VoteMap, key: VoteKey) {
    forall k :: k != key ==> (k in before <==> k in after) && (k in before ==> before[k] == after[k])
  }

  /**
    The create / delete / update / no-op transition on one (user, target)
    key, for a value already known to be -1, 0 or 1. It fails only when
    there is nothing to delete, writes nothing but `key`, keeps the store
    well formed, and afterwards the user's own vote is the requested value.
   */
  function Cast(votes: VoteMap, key: VoteKey, value: int): (r: Result<VoteMap, Failure>)
    requires IsVoteValue(value)
    ensures r.Err? <==> key !in votes && value == 0
    ensures r.Err? ==> r.error == VoteNotFound
    ensures r.Ok? ==> UserVote(r.value, key) == value
    ensures r.Ok? ==> AgreeExcept(votes, r.value, key)
    ensures r.Ok? && WellFormed(votes) ==> WellFormed(r.value)
    ensures WellFormed(votes) && key in votes && votes[key] == value ==> r == Ok(votes)
    ensures r.Ok? && key !in votes ==> r.value.Keys == votes.Keys + {key}
    ensures r.Ok? && key in votes && value != 0 ==> r.value.Keys == votes.Keys
    ensures r.Ok? && value == 0 ==> r.value.Keys == votes.Keys - {key}
  {
    if key !in votes && value == 0 then Err(VoteNotFound)
    else if key !in votes then Ok(votes[key := value])
    else if value == 0 then Ok(votes - {key})
    else if votes[key] != value then Ok(votes[key := value])
    else Ok(votes)
  }

  /** Adding a new non-zero vote moves the score of its own target by that
      vote and no other target's score. */
  lemma ScoreInsert(votes: VoteMap, key: VoteKey, v: int, t: Target)
    requires key !in votes && (v == -1 || v == 1)
    ensures Score(votes[key := v], t) == Score(votes, t) + (if key.target == t then v else 0)
  {
    var after := votes[key := v];
    if key.target == t && v == 1 {
      assert Ups(after, t) == Ups(votes, t) + {key};
      assert Downs(after, t) == Downs(votes, t);
    } else if key.target == t {
      assert Ups(after, t) == Ups(votes, t);
      assert Downs(after, t) == Downs(votes, t) + {key};
    } else {
      assert Ups(after, t) == Ups(votes, t);
      assert Downs(after, t) == Downs(votes, t);
    }
  }

  /** Removing a vote takes it back out of its own target's score. */
  lemma ScoreRemove(votes: VoteMap, key: VoteKey, t: Target)
    requires key in votes && WellFormed(votes)
    ensures Score(votes - {key}, t) == Score(votes, t) - (if key.target == t then votes[key] else 0)
  {
    var rest := votes - {key};
    assert rest[key := votes[key]] == votes;
    ScoreInsert(rest, key, votes[key], t);
  }

  /**
    The score never drifts from the rows: a successful cast changes the score
    of the voted target by exactly (new own vote - old own vote), and the score
    of every other target not at all.
   */
  lemma ScoreAfterCast(votes: VoteMap, key: VoteKey, value: int, t: Target)
    requires WellFormed(votes) && IsVoteValue(value)
    requires Cast(votes, key, value).Ok?
    ensures Score(Cast(votes, key, value).value, t)
         == Score(votes, t) + (if key.target == t then value - UserVote(votes, key) else 0)
  {
    if key !in votes {
      ScoreInsert(votes, key, value, t);
    } else if value == 0 {
      ScoreRemove(votes, key, t);
    } else if votes[key] != value {
      ScoreRemove(votes, key, t);
      ScoreInsert(votes - {key}, key, value, t);
      assert (votes - {key})[key := value] == votes[key := value];
    }
  }

  /**
    One voter, one target, no prior vote, sending 1, 0, -1, 1 (what the up,
    up, down, up buttons send once the repeated up-vote becomes a retraction):
    the score moves by +1, back to the start, -1, then +1, the voter sees
    1, 0, -1, 1, and the last request changes the one row rather than adding
    a second.
   */
  lemma SingleVoterScenario(votes: VoteMap, key: VoteKey)
    requires WellFormed(votes) && key !in votes
    ensures var s1 := Cast(votes, key, 1).value;
            var s2 := Cast(s1, key, 0).value;
            var s3 := Cast(s2, key, -1).value;
            var s4 := Cast(s3, key, 1).value;
            && Score(s1, key.target) == Score(votes, key.target) + 1 && UserVote(s1, key) == 1
            && Score(s2, key.target) == Score(votes, key.target) && UserVote(s2, key) == 0
            && Score(s3, key.target) == Score(votes, key.target) - 1 && UserVote(s3, key) == -1
            && Score(s4, key.target) == Score(votes, key.target) + 1 && UserVote(s4, key) == 1
            && s4.Keys == votes.Keys + {key}
  {
    var t := key.target;
    var s1 := Cast(votes, key, 1).value;
    ScoreAfterCast(votes, key, 1, t);
    var s2 := Cast(s1, key, 0).value;
    ScoreAfterCast(s1, key, 0, t);
    var s3 := Cast(s2, key, -1).value;
    ScoreAfterCast(s2, key, -1, t);
    ScoreAfterCast(s3, key, 1, t);
  }

  /** A vote cast by one user never changes what another user sees as their own
      vote, on any target. */
  lemma ViewerIsolation(votes: VoteMap, key: VoteKey, value: int, other: VoteKey)
    requires IsVoteValue(value) && Cast(votes, key, value).Ok?
    requires other.user != key.user
    ensures UserVote(Cast(votes, key, value).value, other) == UserVote(votes, other)
  {
  }
}
